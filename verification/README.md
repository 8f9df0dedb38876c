# RoutePilot: a verified model of the recovery protocols and the publication gate

RoutePilot plans trips with agents that may crash, be retried or be overtaken at any moment. This
project models, in Dafny, the parts of it that have to stay right under such interleavings, and the
two deterministic engines behind its publication gate. `dafny verify dfyconfig.toml` checks all of it.

| file | what it models |
|---|---|
| `TaskTypes`, `TaskStore`, `TaskProtocol`, `TaskService`, `TaskRaces` | A2A Tasks: the reference store, the compare-and-swap service over it, every interleaving of its workers, and a race of two resumes |
| `DurableTaskStore`, `DurableService` | the PostgreSQL store of the same Tasks, as a refinement of the reference store, and where the service sees the two differ |
| `PlatformTypes`, `PlatformStore`, `PlatformProtocol`, `PlatformRuns`, `PlatformArtifacts` | product Runs, events, leases, idempotency keys, access rights, artifacts, trip pointers and the replay journal |
| `Outbox`, `Delivery` | the outbox dispatcher and the stream worker, with crashes between any two steps, and the dispatch rows of the store at the worker |
| `Backfill`, `BackfillVerify` | the resumable offline migration and its independent reconciliation |
| `Gateway` | the sliding-window quota and circuit breaker of provider calls |
| `Validation`, `Planning` | the publication gate, and the planner whose output it judges |
| `Chunker` | the paragraph chunker |

How to read it. A store or protocol is given twice: as functions on a value (`Store`, `Db`, `World`,
`Host`), over which whole runs are sequences of actions and the theorems are proved, and as a class
whose methods change their fields step by step and are proved to compute those functions. A run is
any sequence of actions by any workers or principals, with clock readings as free inputs. A
transaction is one step: it commits all of its changes or none. Time is in milliseconds unless a
file says otherwise, money is exact, and a digest is taken as injective, so a checksum or
fingerprint is represented by the value it digests. Ids that the system draws at random are inputs
of the actions, and a repeated id fails on the primary key.

What the code does that its description does not say, each with a proof here:

- The migration's source checksum does not cover the creation time of a record, although all four
  target rows carry it. Sources that change only in creation time between two runs pass the
  inventory check; the two requests then differ exactly in those times
  (`InventoryPinsContent`, `CreatedAtIsNotPinned`). A resumed run completes exactly when every record
  committed past the saved cursor has kept its time, and refuses otherwise (`ResumedWithOtherTimes`,
  `OtherTimeIsRefused`).
- The planner tests only the hour at which a block ends, so its blocks can pass midnight
  (`MidnightSlipsThrough`). They do, and its days are then refused by the validator, exactly when some
  ride with the buffer and the stay before it takes a whole day (`PlannerOutputPasses`).
  `FittingRidesPass` tells beforehand when that cannot happen, and `RideBoundIsExact` that its bound
  on rides cannot be relaxed.
- The planner's route summary counts leg, distance and duration of a block that is then dropped, one
  for every day cut short (`RouteSummaryCounts`, `DroppedLegIsCounted`); `UnhurriedSummaryIsExact`
  tells beforehand when it does not.
- A caller refused by the circuit breaker ends the half-open probe of another caller
  (`RefusedCallerEndsTheProbe`). A probe is undisturbed exactly when nobody else tries the provider
  meanwhile (`ProbeIsUndisturbedIffNobodyElseTries`); otherwise every second of the other attempts is
  let through beside it (`EverySecondTryIsLetThrough`).
- A trip can hold a published snapshot it does not point to, exactly when one of two kinds of
  transaction occurs (`NeverStraysIff`; a run of each kind in `PublishedAtCreationStrays` and
  `WrongTypeStrays`).
- An accepted resume message can be replaced by another one under the same id: the id is looked up
  before the retry loop, and the loop tests only the state (`AcceptedMessageIsOverwritten`, a run of
  two racing resumes). A message stays recorded in any case, and as it was exactly when the resume
  stored over it has the same fingerprint (`MessageKeptIff`); it is never changed where callers use a
  message id for one message (`MessagesAreKept`).
- The outbox back-off is capped at 256 seconds, not at the 300 its code names (`DelayBounds`).
- The durable task store takes a write of the service exactly when the reference store does, the log
  stays within 512 events and a resume carries a proper message (`StoresAgreeOnEveryWrite`). A Task
  with a full log, which some run reaches, can be canceled in the reference store and never again
  changed in the durable one (`FullLogSplitsTheStores`). Of a write refused by both, the two name
  different errors exactly when the Task has moved on and the lease is gone (`ErrorsDiffer`).

## Model

| member | source | states |
|---|---|---|
| TaskTypes.ReplayConcat | agent/travel_agent/a2a/service.py:1139-1166 | Folding a log in two stretches gives the same Task as folding it whole |
| TaskStore.InMemoryAgentTaskStore.CreateOrGet | agent/travel_agent/a2a/store.py:189-205 | A dispatch creates one Task; repeating it returns that Task, and another fingerprint is a conflict |
| TaskStore.InMemoryAgentTaskStore.Get | agent/travel_agent/a2a/store.py:207-212 | The stored record, or a missing Task |
| TaskStore.InMemoryAgentTaskStore.Replace | agent/travel_agent/a2a/store.py:227-255 | Replaces only at the expected version and under a live lease when one is given; leaving the executable states drops the lease |
| TaskStore.InMemoryAgentTaskStore.ClaimExecution | agent/travel_agent/a2a/store.py:257-288 | Grants the next attempt only on an executable Task without a live lease |
| TaskStore.InMemoryAgentTaskStore.RenewExecution | agent/travel_agent/a2a/store.py:290-315 | Extends only the live lease with the same owner and attempt |
| TaskStore.InMemoryAgentTaskStore.ReleaseExecution | agent/travel_agent/a2a/store.py:317-326 | Drops only the lease with the same owner and attempt |
| TaskProtocol.DraftReplays | agent/travel_agent/a2a/service.py:900-950 | The events a write adds replay to exactly the status and artifact change it makes |
| TaskProtocol.DraftAdvances | agent/travel_agent/a2a/service.py:878-952 | A write drafted from an allowed snapshot is one legal edge, the next version, and a longer log |
| TaskProtocol.WriteEffect | agent/travel_agent/a2a/store.py:227-255 | However stale the snapshot, the write changes nothing or replaces exactly that snapshot |
| TaskProtocol.StepEffect | agent/travel_agent/a2a/service.py:878-952 | Of all steps of the system only a write changes a record, from the snapshot it read and under its live lease |
| TaskProtocol.ReachableInv | agent/travel_agent/a2a/store.py:175-326 | In every reachable state: pending input exactly in input-required, execution input only in working, artifacts exactly in completed, leases only on executable Tasks and with the latest attempt, dispatch index and records in agreement |
| TaskProtocol.EveryChangeFollowsAnEdge | agent/travel_agent/a2a/service.py:878-952 | In every interleaving each stored change follows an edge of the Task state machine |
| TaskProtocol.TerminalForever | agent/travel_agent/a2a/service.py:491-533 | A terminal Task is the same record after any further actions |
| TaskProtocol.LogRebuildsTask | agent/travel_agent/a2a/service.py:498-529 | In every reachable state the events fold to the stored status and artifacts, and their versions never decrease and cover 2..version |
| TaskProtocol.ExecLater | agent/travel_agent/a2a/service.py:900-950 | Along any run a Task only moves to later versions, its log is only extended, and equal versions are equal records |
| TaskProtocol.ClaimsIncrease | agent/travel_agent/a2a/store.py:257-288 | A later granted claim has a strictly larger attempt |
| TaskProtocol.StaleAttemptIsFenced | agent/travel_agent/a2a/store.py:239-326 | Once a later attempt was granted, no replace, renew or release with an earlier one takes effect, at any clock reading |
| TaskProtocol.ResultsNeedTheLatestAttempt | agent/travel_agent/a2a/service.py:753-809 | Completed, input-required and auth-required are stored only by the live holder of the latest attempt |
| TaskProtocol.TaskShowsItsLastWrite | agent/travel_agent/a2a/service.py:878-952 | In every interleaving the stored record shows the last write to it, or its creation: working with the response it was resumed with, input-required with the request that was asked, completed with the artifacts of its result, each with the message and time of that write |
| TaskProtocol.WorkingKeepsItsResponse | agent/travel_agent/a2a/service.py:491-533 | A working Task keeps its whole record, and with it the response, until it leaves working |
| TaskProtocol.MessageKeptIff | agent/travel_agent/a2a/service.py:487-530 | An accepted message is never dropped by a step, and keeps its fingerprint exactly when no resume stored by that step brings another under its id |
| TaskProtocol.MessagesAreNeverDropped | agent/travel_agent/a2a/service.py:487-530 | Along every run an accepted message stays recorded |
| TaskProtocol.MessagesAreKept | agent/travel_agent/a2a/service.py:487-530 | When resumes under its id are begun only with its fingerprint, an accepted message is unchanged in all later states |
| TaskProtocol.ReplacementAcceptedIff | agent/travel_agent/a2a/store.py:227-255 | A replacement is accepted exactly at the expected version and under the live lease when one is given; it stores the record, ends the lease of a Task no longer executable, and is otherwise without effect |
| TaskProtocol.ReleaseEndsIff | agent/travel_agent/a2a/store.py:317-326 | A release ends exactly the lease with its owner and attempt |
| TaskProtocol.ClaimGrantedIff | agent/travel_agent/a2a/store.py:257-288 | A claim is granted exactly on an executable Task without a live lease, for at least 50 ms, and is otherwise without effect |
| TaskProtocol.RenewalGrantedIff | agent/travel_agent/a2a/store.py:290-315 | A renewal succeeds exactly for the live lease with its owner and attempt on an executable Task, and moves only the end of it |
| TaskProtocol.DispatchCreatesOneTask | agent/travel_agent/a2a/store.py:189-205 | After any further actions a repeated dispatch is answered with its Task as it is then, another fingerprint with a conflict, and nothing changes |
| TaskRaces.AcceptedMessageIsOverwritten | agent/travel_agent/a2a/service.py:487-530 | A concrete run in which the fingerprint of an accepted message is replaced by a racing resume under the same id |
| TaskService.VersionIdentifiesRecord | agent/travel_agent/a2a/store.py:227-255 | Under any store operations a version that has not moved means a record that has not changed |
| TaskService.Attempt | agent/travel_agent/a2a/service.py:878-952 | One turn of the loop under interference: its outcome is explained by the store at the moment of the write, and on a conflict only the others changed the store |
| TaskService.Transition | agent/travel_agent/a2a/service.py:878-952 | The compare-and-swap loop ends; up to then only the others of its turns changed the store, and whatever it wrote was drafted from the record it replaced, in an allowed state and under a live lease |
| TaskService.ResumeInput | agent/travel_agent/a2a/service.py:463-533 | With others acting between the validating read and the loop and before every write: a repeated message is answered without change; a new one that is accepted was asked for at the validating read, and its one write makes an input-required Task working with exactly this response, no pending request and this message added, everything else of the Task as before; of a refused one only the others' changes remain |
| TaskService.CancelOne | agent/travel_agent/a2a/service.py:1128-1132 | Under any interference the store changes by what others did in its turns and at most the write of the canceled record; the record it returns is stored and terminal |
| TaskService.CancelTask | agent/travel_agent/a2a/service.py:1097-1115 | Refused without change exactly when the first read is missing or terminal; otherwise the others and at most one own write change the store, and the Task returned is stored and terminal |
| TaskService.CancelRunTasks | agent/travel_agent/a2a/service.py:1117-1137 | With others acting during and between the cancels, each round changes the store by what they did and at most its own write; a terminal record of every listed Task is stored at some moment, and exactly the canceled ones are returned in order |
| TaskService.CanceledTasksStayTerminal | agent/travel_agent/a2a/service.py:1117-1137 | In every interleaving of the protocol, once the cancel loops have ended every listed Task is terminal, and stays so in every later state |
| TaskService.ConflictMeansProgress | agent/travel_agent/a2a/service.py:878-952 | A cancel turn that does not end its loop was overtaken by a later version |
| TaskService.Subscribe | agent/travel_agent/a2a/service.py:1139-1166 | The stream is every event past the snapshot, once and in order, up to the settled record where it ends, however many versions lie between polls |
| TaskService.PollsOfARun | agent/travel_agent/a2a/store.py:358-383 | What a subscriber can poll along any run meets the subscription's assumptions |
| TaskService.SnapshotPlusStreamIsStored | agent/travel_agent/a2a/service.py:1139-1166 | A snapshot with the events past its version folds to the Task stored later |
| TaskService.SubscribeAlongARun | agent/travel_agent/a2a/service.py:1139-1166 | For a snapshot of any reachable state and polls along any continuation, the snapshot with the streamed events folds to the Task last seen, and the stream ends exactly when that one is settled |
| DurableTaskStore.ValidateRecord | agent/travel_agent/a2a/postgres_store.py:162-208 | Accepts exactly the records with bounded identifiers and an event log ordered within 1..version |
| DurableTaskStore.AssertEventPrefix | agent/travel_agent/a2a/postgres_store.py:585-594 | Accepts exactly replacements whose log extends the stored one |
| DurableTaskStore.LoadRow | agent/travel_agent/a2a/postgres_store.py:314-443 | Hands out the record of a row exactly when its state, event count, numbering and content agree |
| DurableTaskStore.RowsRoundTrip | agent/travel_agent/a2a/postgres_store.py:252-312 | A record written to rows and read back is the same record |
| DurableTaskStore.AppendRows | agent/travel_agent/a2a/postgres_store.py:295-312 | Inserting only the new event rows stores the whole new log |
| DurableTaskStore.ReplaceRefines | agent/travel_agent/a2a/postgres_store.py:596-715 | An accepted row update is a replace of the reference store under the abstraction map |
| DurableTaskStore.CreateRefines | agent/travel_agent/a2a/postgres_store.py:445-516 | The insert of task, inbox and event rows is a create of the reference store, and keeps inbox fingerprints equal to the Task's |
| DurableTaskStore.ClaimRefines | agent/travel_agent/a2a/postgres_store.py:717-780 | The claim update is a claim of the reference store |
| DurableTaskStore.LeaseColumnsRefine | agent/travel_agent/a2a/postgres_store.py:782-835 | Updates of the lease columns are renewals and releases of the reference store |
| DurableTaskStore.PostgresAgentTaskStore.Load | agent/travel_agent/a2a/postgres_store.py:314-443 | Every stored Task loads, as the abstraction shows it |
| DurableTaskStore.PostgresAgentTaskStore.CreateOrGet | agent/travel_agent/a2a/postgres_store.py:445-516 | The reference create on the abstraction, for valid records |
| DurableTaskStore.PostgresAgentTaskStore.Replace | agent/travel_agent/a2a/postgres_store.py:596-715 | The exact answer with its error, and that it succeeds exactly when the reference replace does on a valid record with the same immutable fields and an extended log, and then does the same |
| DurableTaskStore.PostgresAgentTaskStore.ClaimExecution | agent/travel_agent/a2a/postgres_store.py:717-780 | The reference claim, with the lease capped at 300 seconds |
| DurableTaskStore.PostgresAgentTaskStore.RenewExecution | agent/travel_agent/a2a/postgres_store.py:782-817 | The reference renewal, with the lease capped at 300 seconds |
| DurableTaskStore.PostgresAgentTaskStore.ReleaseExecution | agent/travel_agent/a2a/postgres_store.py:819-835 | The reference release |
| DurableService.DraftValidIff | agent/travel_agent/a2a/postgres_store.py:162-208 | A write of the service is valid exactly when the log has room for its events and a resume carries a proper message |
| DurableService.StoresAgreeIff | agent/travel_agent/a2a/postgres_store.py:596-715 | For any snapshot the store is not behind, both stores give the same answer exactly when the write is valid and not both late and without its lease |
| DurableService.StoresAgreeOnEveryWrite | agent/travel_agent/a2a/postgres_store.py:596-715 | The same for every write prepared in any reachable state, in terms of log length and message |
| DurableService.FullLogTakesNoWrite | agent/travel_agent/a2a/postgres_store.py:162-208 | The durable store refuses every write to a Task with a full log |
| DurableService.FullLogSplitsTheStores | agent/travel_agent/a2a/postgres_store.py:162-208 | A run reaches such a Task, which the reference store still cancels |
| DurableService.ErrorsDiffer | agent/travel_agent/a2a/postgres_store.py:611-622 | A concrete run after which one store names the lost lease and the other the version |
| PlatformStore.PostgresPlatformStore.CreateRun | backend/moyuan_web/v1/postgres_store.py:619-769 | One run, event, outbox pair and key per new request; a replay returns the first run; any refusal leaves no trace |
| PlatformStore.PostgresPlatformStore.ClaimRunExecution | backend/moyuan_web/v1/postgres_store.py:776-838 | Grants the next attempt only on a queued or running run without a live lease |
| PlatformStore.PostgresPlatformStore.RenewRunExecution | backend/moyuan_web/v1/postgres_store.py:840-879 | Extends only the live lease it names |
| PlatformStore.PostgresPlatformStore.ReleaseRunExecution | backend/moyuan_web/v1/postgres_store.py:881-902 | Drops only the lease it names |
| PlatformStore.PostgresPlatformStore.PublishRunResult | backend/moyuan_web/v1/postgres_store.py:951-1021 | Publishes a version of the run's own trip; a snapshot also replaces the pointer and supersedes its old target |
| PlatformStore.PostgresPlatformStore.MutateRun | backend/moyuan_web/v1/postgres_store.py:904-1063 | Lease, then version, then publication, then the row with its event and outbox row, all or nothing |
| PlatformStore.PostgresPlatformStore.ResumeRun | backend/moyuan_web/v1/postgres_store.py:1065-1223 | Queues a waiting run on its own unexpired request, with an event and a dispatch; a replay changes nothing |
| PlatformStore.PostgresPlatformStore.CreateArtifact | backend/moyuan_web/v1/postgres_store.py:1279-1357 | First version of a new artifact, under a live lease of the same trip when one is given |
| PlatformStore.PostgresPlatformStore.PatchArtifact | backend/moyuan_web/v1/postgres_store.py:1412-1470 | Adds the next version as a candidate on the expected base |
| PlatformStore.PostgresPlatformStore.CommandArtifact | backend/moyuan_web/v1/postgres_store.py:1472-1657 | Replays from the journal, or applies the status change with pointer, supersessions and journal row |
| PlatformProtocol.LeaseOnlyWhileActive | backend/moyuan_web/v1/postgres_store.py:776-949 | In every reachable state a run holds a lease only while queued or running |
| PlatformProtocol.LostForever | backend/moyuan_web/v1/postgres_store.py:196-231 | A lost lease stays lost through every further transaction |
| PlatformProtocol.LostIsRefused | backend/moyuan_web/v1/postgres_store.py:196-231 | Under a lost lease every mutation and artifact creation fails, and renewals and releases change nothing |
| PlatformProtocol.StoppedRunFencesItsWorkers | backend/moyuan_web/v1/postgres_store.py:931-949 | After a run is canceled, made to wait or finished, every lease granted before is refused in all later states |
| PlatformProtocol.ClaimFencesEarlierLeases | backend/moyuan_web/v1/postgres_store.py:776-838 | A claim has a strictly larger attempt and refuses every earlier lease from then on |
| PlatformProtocol.EventsAndOutboxAgree | backend/moyuan_web/v1/postgres_store.py:709-769 | In every reachable state a run's events are numbered 1..control version, and its outbox rows are those events in order with one dispatch right after its creation and each accepted resume |
| PlatformRuns.AccessIff | backend/moyuan_web/v1/postgres_store.py:142-173 | Access is exactly that of owner, administrator and member, write access that of editors; a foreign trip is not found |
| PlatformRuns.AcceptedIsAuthorized | backend/moyuan_web/v1/postgres_store.py:142-300 | No transaction is accepted without the rights it needs, and a refused one changes nothing |
| PlatformRuns.MemberEffect | backend/moyuan_web/v1/postgres_store.py:508-617 | A change of members sets or removes exactly the named user |
| PlatformRuns.TripCreated | backend/moyuan_web/v1/postgres_store.py:349-385 | A new trip is active, owned by its creator, and points to nothing; a repeated id is refused |
| PlatformRuns.TripEffect | backend/moyuan_web/v1/postgres_store.py:412-483 | A trip update raises the version and changes nothing else than it names |
| PlatformRuns.NewRunsAreAcceptedIff | backend/moyuan_web/v1/postgres_store.py:619-707 | In every reachable state a new run is created exactly by a writer of an active trip, under an unused key, planning without a plan or replanning from exactly the current one |
| PlatformRuns.CreationEffect | backend/moyuan_web/v1/postgres_store.py:683-769 | The created run is queued at version 1 with its command, its key names it, and no other row of trips, runs or artifacts changes |
| PlatformRuns.KeysForever | backend/moyuan_web/v1/postgres_store.py:639-680 | No transaction of any run removes or changes an idempotency key |
| PlatformRuns.RunsForever | backend/moyuan_web/v1/postgres_store.py:904-1063 | No run disappears or changes its trip, tenant or requester |
| PlatformRuns.UsedKeyAnswers | backend/moyuan_web/v1/postgres_store.py:619-680 | The exact answer to a creation under a used key, whatever it asks for: the run the key names, a conflict, or an access error, and no new run |
| PlatformRuns.RepeatedCreationReplays | backend/moyuan_web/v1/postgres_store.py:639-680 | After any further transactions a repeated creation returns the first run as it is then and changes nothing, exactly while the trip is active and writable; another hash is a conflict |
| PlatformRuns.ResumeAcceptedIff | backend/moyuan_web/v1/postgres_store.py:1065-1150 | A run is resumed exactly when it waits at the expected version for this unexpired request, under a new key and with valid values |
| PlatformRuns.ResumeEffect | backend/moyuan_web/v1/postgres_store.py:1150-1223 | The resumed run is queued with these values, its request is gone, and the rest of it and its lease columns are as before |
| PlatformRuns.RepeatedResumeReplays | backend/moyuan_web/v1/postgres_store.py:1084-1110 | After any further transactions a repeated resume returns the run as it is then and changes nothing; another hash or run under the key is a conflict |
| PlatformRuns.MutationAcceptedIff | backend/moyuan_web/v1/postgres_store.py:904-1000 | A mutation is accepted exactly at the expected version, under the live lease it names, with a result stored in the run's own trip |
| PlatformRuns.MutationEffect | backend/moyuan_web/v1/postgres_store.py:931-1063 | State, phase, pending input, error code and result are the given ones and otherwise unchanged; the version is the next one, with one event; the lease ends unless the state is queued or running |
| PlatformRuns.RunStaysAsItIs | backend/moyuan_web/v1/postgres_store.py:776-1223 | Between its accepted mutations and resumes a run is the same in every state, up to its lease |
| PlatformRuns.MutationLasts | backend/moyuan_web/v1/postgres_store.py:904-949 | A run mutated to a state shows that state until its next accepted mutation or resume; while that is neither queued nor running, every claim is answered without a lease |
| PlatformRuns.ClaimAcceptedIff | backend/moyuan_web/v1/postgres_store.py:776-838 | A claim is granted exactly on a queued or running run that no live lease holds |
| PlatformRuns.RenewalAndReleaseIff | backend/moyuan_web/v1/postgres_store.py:840-902 | A renewal moves the end of exactly the live lease it names, and a release clears exactly the lease it names |
| PlatformRuns.ArtifactCreatedIff | backend/moyuan_web/v1/postgres_store.py:1279-1357 | An artifact is created exactly by a writer of the trip under a new id, and by a worker only under the live lease of a run of that trip |
| PlatformArtifacts.SetStatusEffect | backend/moyuan_web/v1/postgres_store.py:984-991 | A status update changes one version's status and nobody's content |
| PlatformArtifacts.SupersedeTripEffect | backend/moyuan_web/v1/postgres_store.py:1564-1580 | Superseding changes exactly the other published versions of the trip |
| PlatformArtifacts.PublishEffect | backend/moyuan_web/v1/postgres_store.py:951-1021 | The status of every version and every pointer after a run publishes a result |
| PlatformArtifacts.TransitionEffect | backend/moyuan_web/v1/postgres_store.py:1543-1630 | The status of every version and every pointer after a select, publish or revoke |
| PlatformArtifacts.MutationPublishes | backend/moyuan_web/v1/postgres_store.py:951-1021 | The tables after an accepted mutation: its result is published and, if a snapshot, becomes the plan of the trip and supersedes the one before; without a result nothing is touched |
| PlatformArtifacts.CommandSettles | backend/moyuan_web/v1/postgres_store.py:1543-1630 | The status of every version and every trip after an accepted command, on the tables before it |
| PlatformArtifacts.PointersAlwaysPublished | backend/moyuan_web/v1/postgres_store.py:951-1021 | In every reachable state a set pointer names a stored, published version of its own trip |
| PlatformArtifacts.EveryStep | backend/moyuan_web/v1/postgres_store.py:1279-1657 | Every transaction keeps pointers good and contents unchanged, and keeps published snapshots at their pointers exactly when it is not one of the two straying kinds |
| PlatformArtifacts.AtMostOnePublishedSnapshot | backend/moyuan_web/v1/postgres_store.py:1543-1630 | Without straying transactions a trip has at most one published snapshot version, the pointer's target |
| PlatformArtifacts.NeverStraysIff | backend/moyuan_web/v1/postgres_store.py:951-1021 | Published snapshots stay at their pointers throughout a run exactly when no transaction of it strays |
| PlatformArtifacts.StrayingBreaksIt | backend/moyuan_web/v1/postgres_store.py:951-1021 | The first straying transaction breaks it |
| PlatformArtifacts.PublishedAtCreationStrays | backend/moyuan_web/v1/postgres_store.py:1279-1357 | A concrete straying run: a snapshot created as already published |
| PlatformArtifacts.WrongTypeStrays | backend/moyuan_web/v1/postgres_store.py:984-1021 | A concrete straying run: a stored snapshot published as a run result of another type |
| PlatformArtifacts.OneJournalRowPerKey | backend/moyuan_web/v1/postgres_store.py:1508-1523 | In every reachable state at most one outbox row answers a replay lookup |
| PlatformArtifacts.ContentForever | backend/moyuan_web/v1/postgres_store.py:1431-1455 | No run changes the identity or content of a stored version |
| PlatformArtifacts.RepeatedCommandReplays | backend/moyuan_web/v1/postgres_store.py:1472-1657 | Repeating a command after any other transactions returns exactly the first answer and changes nothing when the actor may still write to the trip, and fails otherwise |
| PlatformRuns.PatchAcceptedIff | backend/moyuan_web/v1/postgres_store.py:1412-1470 | A patch is accepted exactly on the newest version, named as its base, with valid content, and adds the next version as a candidate |
| PlatformRuns.CommandAcceptedIff | backend/moyuan_web/v1/postgres_store.py:1472-1560 | A command under a new key is accepted exactly on the newest version, named as its base, in the status it starts from |
| PlatformRuns.CommandEffect | backend/moyuan_web/v1/postgres_store.py:1543-1657 | Select, publish and revoke move the version along their one edge, answer with it as stored, and set or clear the pointer of the trip |
| Outbox.DelayBounds | backend/moyuan_web/v1/outbox.py:151-168 | The back-off lies between 1 and 256 seconds, so its cap of 300 never binds |
| Outbox.DelayDoubles | backend/moyuan_web/v1/outbox.py:151-168 | One second at first, doubled by every attempt, and 256 seconds from the eighth on |
| Outbox.Process | backend/moyuan_web/v1/worker.py:79-121 | Everything that is not a dispatch is acknowledged; a dispatch is acknowledged exactly when executed or dead-lettered, never both, executed exactly when its run is read, passes the fence and finishes, and dead-lettered exactly when it is malformed or out of step with its run |
| Outbox.PublishedRowsAreStreamedForGood | backend/moyuan_web/v1/outbox.py:134-149 | In every run a row marked published is on the stream and never becomes unpublished |
| Outbox.EveryUnpublishedRowBecomesClaimable | backend/moyuan_web/v1/outbox.py:89-168 | In every reachable state an unpublished row can be claimed by any idle dispatcher once 256 seconds and one lease have passed |
| Outbox.LockProtectsTheRow | backend/moyuan_web/v1/outbox.py:89-132 | Within the lease no action of other dispatchers changes a claimed row |
| Outbox.MarkWithinLeasePublishes | backend/moyuan_web/v1/outbox.py:134-149 | A dispatcher that marks its streamed row within the lease publishes it |
| Outbox.AcknowledgedDispatchWasHandled | backend/moyuan_web/v1/worker.py:79-130 | In every run an acknowledged dispatch was executed or dead-lettered |
| Outbox.PublishedDispatchIsNeverLost | backend/moyuan_web/v1/worker.py:123-163 | A published dispatch is undelivered, open to every worker, executed or dead-lettered, through any crashes |
| Outbox.FirstEligible | backend/moyuan_web/v1/outbox.py:89-108 | The batch is bounded and every row in it is eligible |
| Outbox.FirstEligibleSkipsNothing | backend/moyuan_web/v1/outbox.py:89-108 | An eligible row is left out only by a full batch of earlier rows |
| Outbox.PostgresOutboxRepository.ClaimBatch | backend/moyuan_web/v1/outbox.py:89-132 | Locks exactly the first eligible rows and returns them with their new attempt numbers |
| Outbox.PostgresOutboxRepository.MarkPublished | backend/moyuan_web/v1/outbox.py:134-149 | Publishes the row only while this dispatcher holds it |
| Outbox.PostgresOutboxRepository.MarkFailed | backend/moyuan_web/v1/outbox.py:151-168 | Unlocks and delays the row only while this dispatcher holds it |
| Outbox.OutboxDispatcher.DispatchOnce | backend/moyuan_web/v1/outbox.py:222-231 | The loop marks every claimed row as its publication went, and streams exactly the successful ones in order |
| Outbox.DispatchSettlesEveryRow | backend/moyuan_web/v1/outbox.py:222-231 | After an undisturbed dispatch every claimed row is published and streamed, or unlocked and delayed; others are as before |
| Outbox.RedisRunWorker.ProcessEntry | backend/moyuan_web/v1/worker.py:79-121 | The verdict of `Process`, with its effect on executed and dead-lettered entries |
| Outbox.RedisRunWorker.ProcessEntries | backend/moyuan_web/v1/worker.py:123-130 | Acknowledges exactly the entries with an acknowledging verdict, every dispatch among them handled |
| Delivery.EveryDispatchNamesItsRun | backend/moyuan_web/v1/postgres_store.py:751-767 | In every reachable state a dispatch row names its run's tenant, actor and trip, at a version the run has reached |
| Delivery.DispatchIsNeverDeadLettered | backend/moyuan_web/v1/worker.py:96-121 | A dispatch the store wrote is never dead-lettered, however much later it is processed; it is executed exactly when its run can be read and finishes |
| Backfill.ApplyRecordEffect | scripts/migration_v1/core.py:715-738 | A record is refused exactly on a conflicting row; otherwise its four rows are there, no other row is added and none is changed |
| Backfill.EveryRunKeepsInv | scripts/migration_v1/core.py:792-946 | Through any runs, batch sizes and stops, every record at or below the saved cursor has its four rows and manifest entry, and no row from before is changed |
| Backfill.StopsDoNotMatter | scripts/migration_v1/core.py:870-946 | Any two histories of a request that complete leave the same tables |
| Backfill.CompleteRunMigratesEveryRecord | scripts/migration_v1/core.py:638-946 | After any earlier stops a completed run has, for every record, an active trip of its owner pointing to the published archive of its content, and a manifest entry with its checksums |
| Backfill.CompletesIffCompatible | scripts/migration_v1/core.py:715-738 | However earlier runs stopped, an unhindered run completes exactly when no row from before the first run differs from a target row |
| Backfill.PreparedIsReady | scripts/migration_v1/core.py:592-619 | The checks before the first batch leave distinct records in cursor order, all with an owner |
| Backfill.InventoryPinsContent | scripts/migration_v1/core.py:592-619 | Two source states that pass one inventory agree up to creation times, and are the same request exactly when those agree |
| Backfill.CreatedAtIsNotPinned | scripts/migration_v1/core.py:638-693 | A concrete pair of source states that both pass and have different target rows |
| Backfill.RunCompletesIff | scripts/migration_v1/core.py:792-946 | On any host an unhindered run completes exactly when no pending record conflicts with the rows it finds, and refuses otherwise |
| Backfill.ResumedWithOtherTimes | scripts/migration_v1/core.py:792-946 | After any stopped runs, a run with other creation times completes exactly when every record committed past the saved cursor has kept its time |
| Backfill.OtherTimeIsRefused | scripts/migration_v1/core.py:715-738 | A concrete run, stopped after its commit, that is refused when resumed with another time |
| Backfill.BackfillHost.CommitBatch | scripts/migration_v1/core.py:871-908 | All rows and entries of the batch, or none |
| Backfill.BackfillHost.Apply | scripts/migration_v1/core.py:792-946 | The batch loop with its three writes per batch and two at the end, stopped after any of them |
| BackfillVerify.VerifyTarget | scripts/migration_v1/core.py:953-1159 | A report is clean exactly when tables and manifest are sound for the request |
| BackfillVerify.CleanIffSound | scripts/migration_v1/core.py:953-1159 | Clean exactly when the manifest lists exactly the records with their checksums and distinct existing targets, every record has its trip with owner and current version, its owner membership, its artifact and its published archive, the owner memberships are as many as the records, and no row of any table is an orphan, crosses tenants or has a dangling current reference |
| BackfillVerify.CompleteBackfillReconciles | scripts/migration_v1/core.py:953-1159 | A backfill that completes on empty tables and a fresh manifest, through any earlier stops, reconciles without an issue |
| BackfillVerify.FreshBackfillEndsReconciled | scripts/migration_v1/core.py:792-946 | On empty tables an unhindered run always completes, and then reconciles |
| Gateway.RateCost | agent/travel_agent/providers/gateway.py:706-717 | One unit per physical call: opening hours one per started batch of ten places, a route matrix one per destination, anything else one |
| Gateway.ProviderGateway.BeforeCall | agent/travel_agent/providers/gateway.py:518-544 | Admission by circuit and quota, with the state each verdict leaves |
| Gateway.ProviderGateway.PruneState | agent/travel_agent/providers/gateway.py:734-748 | Drops expired units of every window and forgets empty windows |
| Gateway.AdmittedIff | agent/travel_agent/providers/gateway.py:518-544 | A call is admitted exactly when the circuit is closed, or past its open period without a probe, and the units in the window leave room for its cost |
| Gateway.NeutralReports | agent/travel_agent/providers/gateway.py:546-569 | A failure that does not count leaves a closed circuit alone, a success closes it, and no report touches another provider |
| Gateway.QuotaHolds | agent/travel_agent/providers/gateway.py:518-544 | For every run with a non-decreasing clock and every time t, the cost admitted in (t - window, t] is within the limit |
| Gateway.ThresholdOpensTheCircuit | agent/travel_agent/providers/gateway.py:546-563 | Counted failures after a success open the circuit exactly from the threshold on, at the latest failure |
| Gateway.OpenCircuitAdmitsNothing | agent/travel_agent/providers/gateway.py:526-533 | During the open period nothing is admitted for the provider, whatever else happens |
| Gateway.ProbeLastsExactlyUntilAReport | agent/travel_agent/providers/gateway.py:526-569 | A probe lasts through a run exactly when no outcome is reported for its provider |
| Gateway.ProbeIsAloneUntilAReport | agent/travel_agent/providers/gateway.py:526-533 | Until such a report nobody else is admitted |
| Gateway.ReportAdmitsTheNextCall | agent/travel_agent/providers/gateway.py:546-569 | After a report, whoever made it, the next call is admitted exactly when the quota has room and the open period is over |
| Gateway.ProbeIsUndisturbedIffNobodyElseTries | agent/travel_agent/providers/gateway.py:361-406 | With refusals reported as the retry loop reports them, a probe is undisturbed exactly when nobody else tries its provider |
| Gateway.EverySecondTryIsLetThrough | agent/travel_agent/providers/gateway.py:361-406 | Otherwise the other attempts are refused and let through in turn |
| Gateway.RefusedCallerEndsTheProbe | agent/travel_agent/providers/gateway.py:401-403 | A concrete run from an empty gateway in which a refused caller's report lets a second probe in beside the first |
| Validation.Validate | agent/travel_agent/runtime_v2/validation.py:61-244 | A check fails exactly when the plan breaks a hard rule, and warns exactly when evidence is not current |
| Validation.CheckDates | agent/travel_agent/runtime_v2/validation.py:70-80 | Least and greatest date decide that all dates lie in the window |
| Validation.CheckPlaces | agent/travel_agent/runtime_v2/validation.py:104-117 | The set is as large as the list exactly when no place repeats |
| Validation.CheckBlocks | agent/travel_agent/runtime_v2/validation.py:118-172 | With the running previous end, exactly the durations, gaps and references of all blocks |
| Validation.CheckConstraints | agent/travel_agent/runtime_v2/validation.py:190-207 | Exactly the hard visit and avoid constraints |
| Validation.CheckFreshness | agent/travel_agent/runtime_v2/validation.py:209-223 | Never fails, and warns exactly for blocks without current evidence |
| Validation.VerifySemantics | agent/travel_agent/runtime_v2/validation.py:252-360 | Coverage counts, a blocking risk exactly on unknown references or open conflicts, and no risk exactly when nothing is stale or uncited either |
| Validation.Combine | agent/travel_agent/runtime_v2/validation.py:368-438 | Refuses reports on another plan; publishable exactly without failing checks, blocking risks or coverage below nine tenths |
| Validation.Gate | agent/travel_agent/runtime_v2/validation.py:61-438 | The three services publish exactly the publishable plans, by a definition that mentions none of them |
| Validation.BlocksInOrder | agent/travel_agent/runtime_v2/validation.py:118-160 | In a day that passes, every earlier block ends before a later one starts, with its transit in between |
| Validation.PublishableDaysAreDisjoint | agent/travel_agent/runtime_v2/validation.py:118-160 | Any two blocks of a day of a publishable plan are disjoint |
| Planning.OrderedKeepsDistinct | agent/travel_agent/runtime_v2/planning.py:302-309 | Putting visit terms first repeats no place when no candidate matches two terms |
| Planning.ChosenIff | agent/travel_agent/runtime_v2/planning.py:285-309 | A candidate is available to the plan exactly when no hard avoid constraint names it |
| Planning.NoCandidatesIff | agent/travel_agent/runtime_v2/planning.py:295-301 | Candidates run out exactly when each of them is named by a hard avoid constraint |
| Planning.ChosenInOrder | agent/travel_agent/runtime_v2/planning.py:285-309 | Candidates that visit constraints name come first, constraint by constraint, and otherwise keep the order of the candidate set |
| Planning.DayShape | agent/travel_agent/runtime_v2/planning.py:334-386 | A planned day is a chain of placed candidates, at most one round, each starting after route and buffer |
| Planning.PlannedDayOk | agent/travel_agent/runtime_v2/planning.py:334-386 | A planned day passes the duplicate, duration, route and reference checks exactly when no block passes midnight, which is when every ride with the buffer and the stay before it takes less than a day |
| Planning.EarlyIffHopsFit | agent/travel_agent/runtime_v2/planning.py:334-386 | A planned day stays before midnight exactly when all of its rides leave room for it |
| Planning.PlannerOutputPasses | agent/travel_agent/runtime_v2/planning.py:285-396 | The same for whole plans, which also always pass the date check |
| Planning.PlanFollowsTheBrief | agent/travel_agent/runtime_v2/planning.py:322-396 | A plan has one day per date with at least one and at most the allowed number of blocks, each the unforbidden candidate it names with its cost, evidence and stay; no title contains a hard avoid term |
| Planning.CandidatesTakeTurns | agent/travel_agent/runtime_v2/planning.py:319-352 | The days take the candidates in turn across the whole plan, skipping only the one that ended a day, and a day is short only when its next candidate would end in the closing hour or later |
| Planning.FittingRidesStayEarly | agent/travel_agent/runtime_v2/planning.py:334-386 | No block passes midnight when the longest ride, the buffer and any stay together take less than a day |
| Planning.FittingRidesPass | agent/travel_agent/runtime_v2/planning.py:334-386 | Then all of these checks pass |
| Planning.WrappingRideFills | agent/travel_agent/runtime_v2/planning.py:334-386 | For every day of two stays, a ride that takes a whole day or more with buffer and stay, and leaves the second stay before the closing hour, is accepted and passes midnight |
| Planning.RideBoundIsExact | agent/travel_agent/runtime_v2/planning.py:334-386 | For a day of two stays no ride within the bound passes midnight exactly when bound, buffer and first stay take less than a day |
| Planning.MidnightSlipsThrough | agent/travel_agent/runtime_v2/planning.py:347-352 | A concrete brief whose plan is built and then refused by the validator, whatever the evidence |
| Planning.TotalCostIsExact | agent/travel_agent/runtime_v2/planning.py:353-396 | The total cost range is the exact sum over all placed blocks |
| Planning.RouteSummaryCounts | agent/travel_agent/runtime_v2/planning.py:337-352 | Legs, distance and duration of the plan's summary are those of the placed routes plus one dropped route for every day cut short |
| Planning.DroppedLegIsCounted | agent/travel_agent/runtime_v2/planning.py:337-352 | A concrete brief whose plan has one block and no route, and a summary of one leg |
| Planning.UnhurriedSummaryIsExact | agent/travel_agent/runtime_v2/planning.py:331-352 | A condition on policy, stays and routes alone under which the summary is exactly that of the placed routes |
| Planning.UnhurriedIsExact | agent/travel_agent/runtime_v2/planning.py:331-352 | For equal stays it is exact: some rides within the bound cut a day short exactly when its reach is not before closing |
| Planning.FillOneDay | agent/travel_agent/runtime_v2/planning.py:322-387 | The block loop computes the planned day with its exact costs |
| Planning.BuildCandidate | agent/travel_agent/runtime_v2/planning.py:272-424 | The loop over the dates computes the plan, its totals and its errors, which `PlanFollowsTheBrief`, `CandidatesTakeTurns`, `TotalCostIsExact` and `RouteSummaryCounts` state on its own terms |
| Chunker.StripSpan | agent/travel_agent/rag/text.py:139 | Stripping keeps one stretch and removes only white space around it |
| Chunker.SeparatorMeaning | agent/travel_agent/rag/text.py:139 | A separator is a newline followed, across white space only, by another |
| Chunker.PiecesCover | agent/travel_agent/rag/text.py:139 | Every character that is not white space lies in a paragraph |
| Chunker.WindowShape | agent/travel_agent/rag/text.py:145-151 | Windows start and end with the paragraph, are full except the last, and overlap in exactly `overlap_chars` |
| Chunker.WindowsCover | agent/travel_agent/rag/text.py:145-151 | Every index of the paragraph lies in a window |
| Chunker.PackBounds | agent/travel_agent/rag/text.py:153-167 | Every chunk is non-empty, stripped and at most target + overlap + 2 long |
| Chunker.PackHolds | agent/travel_agent/rag/text.py:153-167 | Every unit, and the text carried so far, is a contiguous part of some chunk |
| Chunker.ChunksFollow | agent/travel_agent/rag/text.py:153-167 | Every chunk but the first starts with the stripped end of the one before it, which was closed only because a unit of the new chunk did not fit |
| Chunker.NoTextLost | agent/travel_agent/rag/text.py:136-172 | Every character that is not white space is in a stretch of the content that some chunk holds unbroken |
| Chunker.EveryUnitIsHeld | agent/travel_agent/rag/text.py:136-172 | Every paragraph or stripped window is a contiguous part of some chunk |
| Chunker.ChunkBounds | agent/travel_agent/rag/text.py:153-172 | The fallback for an empty result is never needed, and the chunk bound holds |
| Chunker.SplitParagraph | agent/travel_agent/rag/text.py:141-151 | The window loop ends and computes the windows |
| Chunker.PackUnits | agent/travel_agent/rag/text.py:153-167 | The packing loop computes the chunks |
| Chunker.Split | agent/travel_agent/rag/text.py:136-172 | Always ends; raises exactly when a chunk exceeds 8000, and never when target + overlap + 2 fits |

## Left out

- Size limits on serialized tasks, events, payloads and lists (protobuf, JSON, Pydantic): encodings are not modelled, values are.
- Row-level security, SQL text and advisory-lock mechanics: a transaction is one atomic step, and tenants are checked where the code compares them.
- asyncio scheduling, job registry, cancellation tokens, heartbeats, deadlines and every liveness claim.
- That a resumed Task answers the request it was asked: the retry loop re-tests only the state, so it is not claimed.
- Legality of run lifecycle changes and base-version checks at publication: they belong to the run coordinator; the arguments of a mutation are taken as given.
- Columns of run, trip and artifact rows that no modelled transaction reads (titles, traces, timestamps), and the read-only listing operations.
- Validation of resume values and of patched artifact content: the outcome of the validation is an input of the transaction.
- PlatformTypes.Artifact keeps the versions of an artifact as a sequence, since rows are only ever inserted at 1 and at the newest version plus 1.
- Redis stream trimming by length and the batching of `run_once`: streams are untrimmed, and any delivered entry may be taken by any idle worker.
- Order of outbox rows by creation time: the table order is the insertion order; the theorems about many dispatchers allow any eligible batch.
- Backfill runs without a state file or a manifest file, the dry run and the source loaders: the files are always written, and records are given by key.
- Backfill.Source: a source key is its rank in cursor order, which is all that the code compares.
- Cache, stale fallback, idempotency entries, bulkheads and retries of the provider gateway.
- Ranking scores, geographic distances and live routing: a route answer is any leg, one per call.
- Planner contract limits on the number of blocks and days, time zones and citations.
- Regular-expression redaction, HTML sanitizing and tokenizing in the text pipeline.
- HTTP routes, authentication, model and map adapters, metrics, backup and documentation scripts.
