# Verification of the agent runtime and its gates

A Dafny model of the durable job protocol of the agent runtime and of the accounting and gating
state machines around it. `dafny verify dfyconfig.toml` checks the whole project.

## How the runtime is modelled

An async method runs without interruption between two awaits of a worker, the memory sink or the
usage recorder. `runtime.dfy` has one function and one method of class `AgentRuntime` for each
such stretch, on the state the runtime object owns: the job store, the event log, the registered
workers and the background-task map. What a coroutine keeps in its locals across an await, such
as the record a run started from, is an argument of the next stretch.

`protocol.dfy` adds the suspended coroutines. An operation starts a call or resumes one of them,
with any outcome of the worker, the sink or the recorder; a run of the system is any sequence of
operations. Cancellation may reach any run at any moment, which includes every moment at which
`cancel` delivers it. The process may die and be restarted at any suspension point, and also
inside an operation, between a save and the event that follows it, or anywhere among the saves
and events of a recovery; a new process has yet to register its workers.

A property that one operation breaks exactly under a condition is lifted to runs once
(`Protocol.AlwaysIffNever`): it holds in every state of a run if and only if no operation of the
run meets the condition.

| file | models |
|---|---|
| `common.dfy`, `sorting.dfy` | options, filters, counts, and Python's stable sort |
| `jobs.dfy` | job, status, event and capsule values, `with_status` |
| `job_store.dfy`, `file_store.dfy` | the in-memory store, and the file store on a disk that can stop at any step |
| `event_files.dfy` | the durable event stream |
| `runtime.dfy`, `protocol.dfy`, `saves.dfy` | the runtime's stretches, their interleavings, and what one operation writes |
| `safety.dfy` | terminal records, fingerprints, chat limits, restart |
| `attachments.dfy`, `orphans.dfy`, `background.dfy` | follow-ups and artifacts under stale records, RUNNING jobs that nothing runs, and the map of background tasks |
| `audit_log.dfy` | when the log tells the status |
| `effects.dfy`, `completion.dfy` | what a job causes at most once, and exactly how often it is staged and recorded |
| `counterexamples.dfy` | concrete runs for what the code does not keep |
| `explorer_bridge.dfy` | identical explorer calls through the runtime |
| `social.dfy`, `rate_limit.dfy` | the event-sourced permission store, judgement and send gate, and the sliding-window limit |
| `budget.dfy` | budget ledger, policy and preflight, with admitted jobs unfinished |
| `spend.dfy` | the runtime's own jobs as a run of the budget model |
| `inbound.dfy` | the inbound event log and its concurrent handlers |
| `maintenance.dfy` | the maintenance marker, activity and throttle guards |
| `autonomy_policy.dfy`, `intent_builder.dfy` | the autonomy policy, and the intents it decides on |
| `staging.dfy` | the memory staging file, its reader against its writer |
| `browser.dfy` | merging visits by URL, and the two-hour window scan |
| `scroll_offsets.dfy` | the scroll positions of a full-page capture |

A class models an object whose methods update its fields; its methods are proved against
functions on values, and the lemmas are about these functions. What such a function computes is
stated once more on the stored values alone, in the lemmas whose names end in `Means`, `Answers` or
`Carries`.

## What the code does not keep

These expectations fail in the code. The model keeps the code's behaviour; for each there is a
lemma that says exactly when the expectation holds, and one that gives a failing input.

- A finished job stays finished: `enqueue` does not look at the status. Nothing else breaks this
  (`Safety.LeavesTerminalOnlyByEnqueue`; `Counterexamples.FailedIsRevived`).
- Unfinished jobs have different fingerprints: lost exactly when such an `enqueue` revives a job
  while an unfinished one has its fingerprint (`Safety.UniquenessLostIff`,
  `Safety.FingerprintsUniqueIff`; `Counterexamples.FingerprintsClash`).
- A terminal record is final: six operations write over it, which do not look at the stored
  status; a timeout and a pending `cancel` are among them (`Safety.TerminalRecordKept`;
  `Counterexamples.FailedIsOverwritten`).
- A chat keeps within its limits: `create_job` alone checks them, so each `enqueue` or start that
  joins a job to a full group exceeds them (`Safety.LimitKeptIff`;
  `Counterexamples.LimitExceeded`, `Counterexamples.QueueLimitExceeded`, and `Safety.QueueBound`,
  `Safety.ActiveBound` for how far).
- What is attached to a job stays attached: the lists of follow-ups and artifacts shrink when a
  record from before the attachment is written back, by a worker that returns or times out, and
  by a `cancel` that was waiting for the worker (`Attachments.AttachmentLastsIff`;
  `Counterexamples.FollowupLostOnReturn`, `Counterexamples.RepeatedFollowupLost`,
  `Counterexamples.FollowupLostOnCancel`).
- A job has at most one live background run: the done-callback of an older run removes the map
  entry of a newer one (`Background.TrackedIff`; `Counterexamples.TwoBackgroundRuns`).
- A RUNNING job has a run that will finish it: `start` saves RUNNING before it looks up the
  worker, a scheduled task can be dropped before it begins, and a death of the process leaves
  RUNNING behind until the next recovery (`Orphans.OrphanedIff`, `Orphans.DrivenIff`;
  `Counterexamples.UnknownWorkerOrphans`).
- The log tells each job's status: `enqueue`, `complete` and `fail` emit no event, and the process
  can die after a save and before its event (`AuditLog.StepAgreement`,
  `AuditLog.AgreementLastsIff`; `Counterexamples.FailIsUntold`,
  `Counterexamples.TornStartIsUntold`). A record left CANCELED, DONE or FAILED this way stays
  untold until the job is moved again, since recovery does not list it.
- A grant's limit holds in every window: with c approvals outstanding at once up to c - 1 more
  sends go out (`RateLimit.SlidingWindowBound`, `RateLimit.LimitKeptIff`;
  `RateLimit.BoundIsAttained`).
- A bucket's cap holds: the gate does not count the jobs it has admitted and that are not recorded
  yet (`Spend.SpendIsBounded`, `Budget.CapKeptIff`; `Budget.BoundIsAttained`).
- A completed job records at most its estimate: an observed cost above it is recorded as it is
  (`Budget.GatedJobsRecord`; `Budget.OverrunRecorded`).
- A page is captured whole: one more than seven steps long has gaps
  (`ScrollOffsets.CapturedWholeIff`; `ScrollOffsets.GapExample`).

## Model

| member | source | states |
|---|---|---|
| Safety.LeavesTerminalOnlyByEnqueue | src/agent_runtime/runtime.py:153-361 | From any state with any calls suspended, one operation, also one that the process does not survive, takes a job out of the terminal statuses if and only if it is `enqueue` of that job. |
| Safety.TerminalIsClosed | src/agent_runtime/runtime.py:196-361 | In every interleaving without `enqueue` of the job, a job in DONE, FAILED, CANCELED or NEEDS_REVIEW stays in that set. |
| Safety.TerminalRecordKept | src/agent_runtime/runtime.py:229-361 | No operation but the six that `Overwrites` lists changes a terminal record: `enqueue`, `complete`, `fail` and `cancel` of the job, a pending `cancel` of it, and the timeout of a run of it that awaits its worker. Each of these stamps the record with its own time, so once time has passed the record is kept if and only if the operation is none of them. |
| Safety.CancelWins | src/agent_runtime/runtime.py:229-361 | Once a record is CANCELED, no later worker result, exception, task cancellation, attachment, recovery, restart or death of the process in any run changes a single field of it, unless one of those six operations comes. |
| Safety.FingerprintsAreUnique | src/agent_runtime/runtime.py:129-144 | Every state reachable without reviving a finished job has at most one unfinished job per fingerprint. |
| Safety.StepKeepsOnePerFingerprint | src/agent_runtime/runtime.py:116-151 | Any other operation keeps that uniqueness, because a job is only created when the lookup shows no unfinished match. |
| Safety.UniquenessLostIff | src/agent_runtime/runtime.py:116-157 | One operation takes the uniqueness away if and only if it is an `enqueue` that revives a finished job while another unfinished job has its fingerprint. |
| Safety.FingerprintsUniqueIff | src/agent_runtime/runtime.py:116-157 | Every state of a run keeps the uniqueness if and only if no operation of the run does that. |
| Safety.QueueBound | src/agent_runtime/runtime.py:468-486 | In every run from an empty store a chat's QUEUED and AWAITING_INPUT jobs number at most `max_queued_per_chat` plus the `enqueue` calls that brought one of its jobs in from another status. |
| Safety.ActiveBound | src/agent_runtime/runtime.py:196-216 | In every such run a chat's RUNNING and WAITING_USER jobs number at most `max_active_per_chat` plus the starts of its jobs that were not active. |
| Safety.StartIgnoresTheLimit | src/agent_runtime/runtime.py:196-202 | Every start of an unfinished job that is not active adds one to the chat's active jobs, whatever the limit. |
| Safety.GroupGrowth | src/agent_runtime/runtime.py:468-486 | One operation takes either group beyond its limit by at most one, and only by bringing in a job from another status. |
| Safety.GroupBound | src/agent_runtime/runtime.py:468-486 | The bound of both groups, over every run. |
| Safety.LimitLostIff | src/agent_runtime/runtime.py:153-216 | One operation takes a chat over a limit it keeps if and only if it is an `enqueue` or a start that joins one more job to a full group; `create_job` never does. |
| Safety.LimitKeptIff | src/agent_runtime/runtime.py:153-216 | A run keeps a chat within a limit in every state if and only if it holds no such operation. |
| Safety.RecoveredAfterRestart | src/agent_runtime/runtime.py:258-268 | A restart followed by recovery leaves nothing suspended and no job RUNNING or WAITING_USER, moves exactly those to NEEDS_REVIEW and keeps every other record. |
| Safety.RecordsAreConsistent | src/agent_runtime/models.py:179-205 | In every run of jobs created unfinished and not RUNNING, a RUNNING record has its start time, a terminal one its finish time, and a DONE one its result, whatever stale snapshots are written back. |
| Attachments.AttachmentKeptIff | src/agent_runtime/runtime.py:176-361 | What is attached to a job, its lists of follow-ups and of artifacts up to any point, with repetitions, stays at the head of the lists through one operation if and only if the operation does not write back a held record that lacks some of it: by a result for an unfinished job, a timeout, or a pending `cancel` that resumes. |
| Attachments.AttachmentLastsIff | src/agent_runtime/runtime.py:176-361 | It stays through a whole run, whatever interleaves, if and only if no operation of the run does that. |
| Attachments.AttachedDuringRun | src/agent_runtime/runtime.py:176-194 | What is attached to an unfinished job, at any moment of its runs and also when the same text was attached before, is added to its list, and the list lasts under exactly that condition. |
| Attachments.AttachmentsAfterRun | src/agent_runtime/runtime.py:285-361 | Which follow-ups and artifacts the end of a run leaves: those of the record it started from after a counting result or a timeout, the current ones after everything else. |
| Attachments.ListsAfter | src/agent_runtime/runtime.py:116-361 | One operation leaves the lists of the record it writes back, or else the current ones, at most with something more attached. |
| Attachments.AttachedAndReturned | src/agent_runtime/runtime.py:176-361 | From any state, when a worker starts, gets anything attached to its job and returns, the lists are afterwards what they were at the start. |
| Background.UntrackedIff | src/agent_runtime/runtime.py:204-216 | One operation makes the task map lose a live background run of a job if and only if it is the done-callback of an older run of the job while a newer one lives. |
| Background.TrackedIff | src/agent_runtime/runtime.py:204-216 | The map knows every live background run of a job in every state of a run if and only if no operation of the run does that. |
| Background.TrackedIsSingle | src/agent_runtime/runtime.py:204-216 | As long as it does, the job has at most one live background run, which `start_background` finds. |
| Orphans.OrphanedIff | src/agent_runtime/runtime.py:116-361 | One operation leaves a job RUNNING with no run to finish it if and only if it is a start whose worker is not registered and that no other run makes up for, the last run's begin without a registered worker or its drop before it begins, a death of the process or a recovery cut short that leaves the job RUNNING, or a creation in RUNNING. |
| Orphans.DrivenIff | src/agent_runtime/runtime.py:116-361 | In every state of a run each RUNNING job has a run that waits for its worker or is scheduled, if and only if no operation of the run is one of these. |
| Saves.SavesOne | src/agent_runtime/runtime.py:116-361 | Every operation but a recovery saves at most the one record that `SavedRecord` names. |
| Saves.StoreAfterRecovery | src/agent_runtime/runtime.py:258-268 | A recovery, whole or cut short between any two writes, moves exactly the jobs it got to and keeps every other record. |
| AuditLog.LogDeterminesStatus | src/agent_runtime/runtime.py:116-361 | In every run, with silent calls and with deaths of the process between a save and its event, at every suspension point the last lifecycle event of a job determines its stored status, unless the job is untold of: last moved by one of these, and not by an operation that emitted its status since. |
| AuditLog.StepAgreement | src/agent_runtime/runtime.py:116-466 | One operation takes the agreement of log and store on a job away if and only if it moves the job's status unheard: as a silent call, or by a death after the save. An operation that emits the status brings the agreement back. |
| AuditLog.AgreementLastsIff | src/agent_runtime/runtime.py:116-466 | The agreement on a job lasts through a run if and only if no operation of the run moves its status unheard. |
| AuditLog.LogAlwaysAgrees | src/agent_runtime/runtime.py:116-466 | Without silent calls and without deaths between save and event, log and store agree on every job in every run, restarts and interrupted recoveries included. |
| AuditLog.OneJobUnheard | src/agent_runtime/runtime.py:116-361 | No operation moves two jobs unheard: a death costs the log at most the one job last saved. |
| AuditLog.RecoveryAgreement | src/agent_runtime/runtime.py:258-268 | A recovery announces each record it moves, except the last one when it dies between that save and its event. |
| AuditLog.SilentCallBreaksAgreement | src/agent_runtime/runtime.py:153-256 | `enqueue`, `complete` and `fail` leave the log in agreement exactly when the status they save is the one the job already had. |
| Effects.AtMostOnceEffects | src/agent_runtime/runtime.py:353-466 | Over all interleavings, with one job started repeatedly and concurrently, a job emits COMPLETED, enters memory staging and enters usage recording at most once, plus once for each time it was enqueued after it had finished; how often exactly is the subject of `Completion`. |
| Effects.EffectsBounded | src/agent_runtime/runtime.py:353-466 | The sharper form: an unfinished job has used up one of these less than a finished one. |
| Effects.StepTallies | src/agent_runtime/runtime.py:400-466 | One operation moves the three counters only when a run of the job ends with a result that counts, and each by at most one; a staging run has its recording reserved. |
| Completion.ReturnMeans | src/agent_runtime/runtime.py:353-361 | When a run returns a capsule to an unfinished job, exactly that job is handed to the memory sink if there is one and the capsule has candidates, and otherwise at once to the usage recorder if there is one; the run goes on with just that, on the record it has stored. |
| Completion.StagingEndMeans | src/agent_runtime/runtime.py:400-466 | When a staging run ends, well or with an exception, exactly its job is handed to the recorder, if there is one. |
| Completion.NothingElseMeans | src/agent_runtime/runtime.py:116-466 | No other operation stages or records anything or starts a staging run. |
| Completion.StagedExactly | src/agent_runtime/runtime.py:353-412 | In every run a job is staged exactly as often as a run of it returned candidates to a configured sink. |
| Completion.RecordedExactly | src/agent_runtime/runtime.py:353-466 | With a recorder, the recordings of a job, its runs that are staging and the recordings lost with such runs add up to its counted results; without one nothing is ever recorded. |
| Completion.OnlyDropsLose | src/agent_runtime/runtime.py:400-466 | A recording is lost only with a dropped staging run or a death of the process. |
| Completion.CompletedIsRecorded | src/agent_runtime/runtime.py:353-466 | So in a run without these, once no staging run is left, every counted result was recorded. |
| Completion.CompletionsExactly | src/agent_runtime/runtime.py:353-358 | The COMPLETED events of a job are exactly its counted results. |
| Protocol.StepEffect | src/agent_runtime/runtime.py:116-361 | What one operation may do to the store: existing jobs keep their origin and move only to a terminal status, to RUNNING by a start or to QUEUED by `enqueue`; only `create_job` adds a job. |
| Protocol.StepKeepsWf | src/agent_runtime/runtime.py:116-361 | Every job snapshot a suspended call holds stays a stored job with the same origin, in every state. |
| Protocol.AlwaysIffNever | src/agent_runtime/runtime.py:116-466 | What one operation breaks exactly under a condition, a run keeps exactly when no operation meets the condition. |
| Protocol.RunFrom | src/agent_runtime/runtime.py:116-466 | Any sequence of operations leads from a well-formed state to a well-formed state. |
| Protocol.CreateStep | src/agent_runtime/runtime.py:129-151 | `create_job` either adds the new record, with no unfinished job of its fingerprint and within the chat's limits, or changes nothing. |
| Protocol.AfterWorkerStep | src/agent_runtime/runtime.py:285-361 | The end of a worker run either keeps the store or moves its one job to a terminal status. |
| Counterexamples.FailedIsRevived | src/agent_runtime/runtime.py:153-157 | A run in which a failed job becomes unfinished again. |
| Counterexamples.FailedIsOverwritten | src/agent_runtime/runtime.py:246-250 | A run in which a failed job's record is written over. |
| Counterexamples.LimitExceeded | src/agent_runtime/runtime.py:196-202 | A run in which the second of two jobs is started although the chat has its one active job. |
| Counterexamples.QueueLimitExceeded | src/agent_runtime/runtime.py:153-157 | A run in which a failed job is enqueued although the chat has its one queued job. |
| Counterexamples.FingerprintsClash | src/agent_runtime/runtime.py:153-157 | A run in which a failed job is enqueued although an unfinished one has taken its fingerprint. |
| Counterexamples.TwoBackgroundRuns | src/agent_runtime/runtime.py:204-216 | A run with two live background runs of one job. |
| Counterexamples.FollowupLostOnReturn | src/agent_runtime/runtime.py:176-361 | A run in which a follow-up attached while the worker runs is gone when it returns. |
| Counterexamples.RepeatedFollowupLost | src/agent_runtime/runtime.py:176-361 | A run in which of two equal follow-ups, the second attached while the worker runs, one is left when it returns. |
| Counterexamples.FollowupLostOnCancel | src/agent_runtime/runtime.py:229-244 | A run in which such a follow-up outlives the run and is gone when a waiting `cancel` goes on. |
| Counterexamples.UnknownWorkerOrphans | src/agent_runtime/runtime.py:285-286 | A run that leaves a job RUNNING with nothing to finish it. |
| Counterexamples.FailIsUntold | src/agent_runtime/runtime.py:252-256 | A run after which the log does not tell that a job failed. |
| Counterexamples.TornStartIsUntold | src/agent_runtime/runtime.py:270-283 | A run after which the log does not tell that a job was started, the process having died before the event. |
| Runtime.AgentRuntime.constructor | src/agent_runtime/runtime.py:86-106 | A new runtime has an empty store, log and background-task map. |
| Runtime.AgentRuntime.RegisterWorker | src/agent_runtime/runtime.py:108-110 | Adds the worker's name and changes nothing else. |
| Runtime.AgentRuntime.CreateJob | src/agent_runtime/runtime.py:116-151 | Returns the stored unfinished job of the fingerprint, or refuses with the budget's or the limit's reason and changes nothing, or saves the new job and emits CREATED, in this order of precedence. |
| Runtime.CreateAnswers | src/agent_runtime/runtime.py:116-151 | On the store before the call: an existing job is answered if and only if an unfinished stored one has the fingerprint, and then as it is stored; a refusal if and only if there is none and the budget refuses or the job's own group in the chat is full, with the first such reason; and otherwise exactly the new job is added. |
| Runtime.LimitMeans | src/agent_runtime/runtime.py:468-486 | When each of the two limits refuses, counted on the stored records. |
| Runtime.AgentRuntime.EnforceChatLimits | src/agent_runtime/runtime.py:468-486 | Refuses a job exactly when the chat has reached the limit of the group of statuses the job belongs to. |
| Runtime.AgentRuntime.CountInChat | src/agent_runtime/runtime.py:475-476 | The loop over a status listing counts the stored jobs of the chat in these statuses. |
| Runtime.ListingCounts | src/agent_runtime/runtime.py:468-476 | Counting a chat's jobs in a status listing gives the number of such jobs in the store. |
| Runtime.AgentRuntime.Enqueue | src/agent_runtime/runtime.py:153-157 | The new state: the job QUEUED, nothing emitted. |
| Runtime.AgentRuntime.Complete | src/agent_runtime/runtime.py:246-250 | The new state: the job DONE with the given capsule, nothing emitted. |
| Runtime.AgentRuntime.Fail | src/agent_runtime/runtime.py:252-256 | The new state: the job FAILED, nothing emitted. |
| Runtime.AgentRuntime.AttachFollowup | src/agent_runtime/runtime.py:176-184 | Appends the text and emits its first 200 characters, unless the job is terminal. |
| Runtime.AgentRuntime.AttachArtifact | src/agent_runtime/runtime.py:186-194 | Appends the artifact and emits it, unless the job is terminal. |
| Runtime.AttachMeans | src/agent_runtime/runtime.py:176-194 | On the stored record: where the attachment goes, and the event, of a follow-up at most 200 characters. |
| Runtime.SilentCallsMean | src/agent_runtime/runtime.py:153-256 | On the stored record: what `enqueue`, `complete` and `fail` store, and that they announce nothing. |
| Runtime.AgentRuntime.Start | src/agent_runtime/runtime.py:196-202 | Up to the await of the worker: a terminal job is returned as it is; otherwise the job is saved RUNNING and STARTED is emitted, even when its worker turns out to be unknown. |
| Runtime.AgentRuntime.StartBackground | src/agent_runtime/runtime.py:204-216 | The same for a background task, which is started only when the task map holds no live one for the job. An older task's callback can take a newer one's entry out of that map, so the job itself may have a live run. |
| Runtime.StartAnswers | src/agent_runtime/runtime.py:196-202 | On the stored record: what `start` stores, announces and goes on with, for a missing, a finished and an unfinished job, with a registered worker and without. |
| Runtime.StartBackgroundAnswers | src/agent_runtime/runtime.py:204-216 | The same for a background start. |
| Runtime.AgentRuntime.AfterWorker | src/agent_runtime/runtime.py:285-361 | From the end of the worker's await to the next suspension, for a result, an exception, a timeout and a cancellation, each with the record it writes and the event it emits. |
| Runtime.AfterWorkerAnswers | src/agent_runtime/runtime.py:285-361 | On the stored record: what each outcome of the worker leaves there, field by field, what it announces, and that exactly this record is returned. |
| Runtime.AgentRuntime.AfterStaging | src/agent_runtime/runtime.py:400-432 | The event that follows memory staging. |
| Runtime.AgentRuntime.AfterRecording | src/agent_runtime/runtime.py:434-466 | The event that follows usage recording. |
| Runtime.EffectEventsMean | src/agent_runtime/runtime.py:400-466 | The event after staging and after recording, for an exception, no count and a positive one. |
| Runtime.AgentRuntime.CancelBegin | src/agent_runtime/runtime.py:229-238 | `cancel` up to the await of the worker's own cancel, when there is one. |
| Runtime.AgentRuntime.CancelEnd | src/agent_runtime/runtime.py:239-244 | `cancel` resumed: the record read before the await is saved CANCELED and the event emitted. |
| Runtime.CancelBeginAnswers | src/agent_runtime/runtime.py:229-244 | When `cancel` waits for the worker, and with which record; otherwise it cancels at once. |
| Runtime.CancelEndAnswers | src/agent_runtime/runtime.py:239-244 | What it stores, announces and returns. |
| Runtime.AgentRuntime.RecoverRunningJobs | src/agent_runtime/runtime.py:258-268 | The recovery loop saves and announces NEEDS_REVIEW for each listed job, in order. |
| Runtime.RecoverEffect | src/agent_runtime/runtime.py:258-268 | Recovery turns exactly the RUNNING and WAITING_USER jobs into NEEDS_REVIEW and keeps every other record. |
| Runtime.RecoverAllEffect | src/agent_runtime/runtime.py:263-267 | The same for any list of stored records the loop goes over. |
| Runtime.RecoverAnnounces | src/agent_runtime/runtime.py:258-268 | Recovery announces the records in their order, each with the reason. |
| Jobs.WithStatusMeans | src/agent_runtime/models.py:179-205 | Field by field: the first start is kept, every end is stamped, an error or result replaces the one before, nothing else changes. |
| Jobs.TerminalMeans | src/agent_runtime/runtime.py:639-644 | The four statuses in which a job is finished. |
| Jobs.NewJobMeans | src/agent_runtime/models.py:155-177 | A new job has the given status and origin, nothing attached, no result and no history. |
| Runtime.InMemoryAgentEventStream.EventsFor | src/agent_runtime/events.py:29-30 | The loop over the log gives exactly the events of the job, in order. |
| EventFiles.FileAgentEventStream.Emit | src/agent_runtime/events.py:39-43 | Appending to the job's file keeps every file equal to its job's part of the single log. |
| EventFiles.FileAgentEventStream.EventsFor | src/agent_runtime/events.py:45-53 | The durable stream answers like the in-memory one. |
| EventFiles.EmitKeeps | src/agent_runtime/events.py:39-53 | One emitted event changes the answer for its own job and for no other. |
| JobStore.InMemoryAgentJobStore.Save | src/agent_runtime/storage.py:36-42 | Adds or replaces exactly one record, keeping the insertion order. |
| JobStore.InMemoryAgentJobStore.Get | src/agent_runtime/storage.py:44-48 | The stored record, or the not-found error. |
| JobStore.InMemoryAgentJobStore.FindByFingerprint | src/agent_runtime/storage.py:50-53 | The scan and choice find what `Find` names. |
| JobStore.InMemoryAgentJobStore.ListByStatus | src/agent_runtime/storage.py:55-59 | The records in the given statuses, in insertion order. |
| JobStore.FindPrefersUnfinished | src/agent_runtime/storage.py:122-128 | The lookup finds a record whenever one matches, an unfinished one whenever one exists, and always one than which no candidate is newer. |
| JobStore.FoundIsLatest | src/agent_runtime/storage.py:122-128 | On the records' own fields: of the unfinished matches, or without such of all, one with the latest update, and at the same one the latest creation. |
| JobStore.PutMeans | src/agent_runtime/storage.py:36-42 | Saving changes one record, and adds its id at the end when it is new. |
| JobStore.PreferredIsNewest | src/agent_runtime/storage.py:122-128 | The same for any list of matches. |
| FileStore.SaveIsAtomic | src/agent_runtime/storage.py:71-77 | A save that stops at any disk step before its rename leaves every record readable as before; past the rename exactly this record is replaced. No torn state can be read. |
| FileStore.DiskRefinesMap | src/agent_runtime/storage.py:62-111 | With any number of saves, each cut short anywhere, what can be read back is the in-memory map under exactly the saves that reached their rename. |
| FileStore.SourceFormatIsSound | src/agent_runtime/storage.py:73-111 | The names `<id>.json` and `<id>.tmp` keep records apart and temporary files out of every listing. |
| FileStore.InterruptedRecoveryOnDisk | src/agent_runtime/runtime.py:258-268 | However far a recovery gets before the process dies, the disk reads as the old map with some of its active jobs moved to NEEDS_REVIEW. |
| FileStore.InterruptedExactly | src/agent_runtime/runtime.py:258-268 | Which jobs an interrupted recovery has moved: those before the one it was saving, and that one exactly when its save got to the rename. |
| FileStore.RecoveryAfterCrash | src/agent_runtime/runtime.py:258-268 | For the records read back: a recovery that dies anywhere and is run again leaves no RUNNING or WAITING_USER job and has changed no other. |
| FileStore.RecoveryAfterCrashOnDisk | src/agent_runtime/runtime.py:258-268 | The same of the disk: every record file is whole, none holds an active job, and the others are as they were. |
| FileStore.FileAgentJobStore.RecoverAfterCrash | src/agent_runtime/runtime.py:258-268 | From the disk before an interrupted recovery, through its death at any disk step and the second recovery, to that disk. |
| FileStore.LookupsAgree | src/agent_runtime/storage.py:85-91 | Both stores' lookups keep the same promise, and find the same record when no two matches carry the same timestamps. |
| FileStore.FileAgentJobStore.Save | src/agent_runtime/storage.py:71-77 | Write and rename put exactly this record on the disk. |
| FileStore.FileAgentJobStore.Get | src/agent_runtime/storage.py:79-83 | The stored record, or the not-found error. |
| FileStore.FileAgentJobStore.ReadAll | src/agent_runtime/storage.py:107-111 | The listing finds every record once and no temporary file. |
| FileStore.FileAgentJobStore.ListByStatus | src/agent_runtime/storage.py:93-102 | Exactly the records in the given statuses, each once. |
| FileStore.FileAgentJobStore.FindByFingerprint | src/agent_runtime/storage.py:85-91 | The preferred record of the fingerprint, whatever the listing order. |
| FileStore.FileAgentJobStore.RecoverRunningJobs | src/agent_runtime/runtime.py:258-268 | Recovery on the disk moves exactly the active jobs to NEEDS_REVIEW. |
| ExplorerBridge.ResultIsReused | src/agent_runtime/bridge.py:56-84 | Of any number of identical calls, one after the other, each runs the worker exactly once until a job of the fingerprint is DONE; every later call runs it zero times and returns that job's result. |
| ExplorerBridge.AnsweredCall | src/agent_runtime/bridge.py:77-79 | With a DONE job of the fingerprint a call changes nothing and returns its result. |
| ExplorerBridge.UnansweredCall | src/agent_runtime/bridge.py:80-84 | Without one, a call creates one job, runs the worker once and leaves the job finished. |
| ExplorerBridge.CallMeans | src/agent_runtime/bridge.py:56-84 | A call in any state: a DONE record with a result answers it, an unfinished one is run, and otherwise a new job is, unless the chat's queue is full. |
| ExplorerBridge.RunMeans | src/agent_runtime/bridge.py:80-84 | What running a job answers: nothing without job or worker, the stored result of a finished one, and otherwise, after exactly one run of the worker, what that leaves stored. |
| ExplorerBridge.AgentRuntimeExplorerRunner.GetOrCreate | src/agent_runtime/bridge.py:151-192 | A reusable record of the fingerprint, or else a new job. |
| ExplorerBridge.AgentRuntimeExplorerRunner.Explore | src/agent_runtime/bridge.py:56-84 | The whole call, on the runtime object. |
| Social.ReloadAgrees | src/agency/store.py:27-175 | After any sequence of calls, failed ones on unknown ids included, a fresh store loaded from the log holds the same grants, sent events and control state. |
| Social.CallKeepsAgreement | src/agency/store.py:34-107 | Each call appends exactly the lines that replay to what it did in memory. |
| Social.DecisionsSurviveRestart | src/agency/social_gate.py:54-111 | Restarting the process changes no decision of the send gate. |
| Social.AllowedMeans | src/agency/social_gate.py:54-111 | Gate and judgement together allow a send under a grant if and only if there is no emergency stop, the grant is the first stored one that is for the target, names the scope, is active and not expired, the topic is neither forbidden nor outside the allowed ones, the window has room by the log and by the caller's count, nothing speaks against privacy, conflict, novelty or tone, and the grant's scopes let it speak, with something to add where they ask for it. |
| Social.MatchingIsFirstInForce | src/agency/models.py:247-262 | The grant the gate uses is the first that is in force, in the grants' own fields. |
| Social.RefusedMeans | src/agency/social_gate.py:54-75 | When the stop, a missing grant and the topic refuse, in this order. |
| Social.JudgementMeans | src/agency/judgement.py:22-93 | The judgement, fact by fact: exactly when each action is taken and a send allowed. |
| Social.JudgedMeans | src/agency/social_gate.py:76-111 | A request that passes stop, grant and topic gets the judgement on the larger of the logged and the claimed count. |
| Social.OutOfForceIsRefused | src/agency/social_gate.py:54-75 | With the grants for target and scope paused, revoked or expired, every request is refused. |
| Social.WithdrawnIsRefused | src/agency/store.py:41-64 | Pausing or revoking the only grant refuses every later request. |
| Social.ResumedIsAllowed | src/agency/store.py:41-64 | Resuming it, unexpired and with room, lets the request through. |
| Social.StopRefusesAll | src/agency/store.py:66-74 | The emergency stop refuses everything; lifting it restores every decision from before. |
| Social.MatchingGrantComplete | src/agency/social_gate.py:113-126 | The search misses a grant only when none permits the scope on the target. |
| Social.FileSocialPermissionStore.constructor | src/agency/store.py:130-175 | Loading replays the lines of the file. |
| Social.FileSocialPermissionStore.ReadLine | src/agency/store.py:144-175 | The effect of each kind of line; a status for an unknown grant is ignored. |
| Social.FileSocialPermissionStore.AddGrant | src/agency/store.py:34-36 | Memory and log after `add`. |
| Social.FileSocialPermissionStore.ChangeStatus | src/agency/store.py:41-64 | Memory and log after pause, resume and revoke; an unknown id changes neither. |
| Social.FileSocialPermissionStore.EmergencyStop | src/agency/store.py:66-74 | Memory and log after `set_emergency_stop`. |
| Social.FileSocialPermissionStore.RecordSend | src/agency/store.py:82-107 | Memory and log after `record_sent`. |
| Social.FileSocialPermissionStore.CountSentInWindow | src/agency/store.py:109-128 | The loop counts the grant's sends in the closed window that ends now. |
| RateLimit.SlidingWindowBound | src/agency/store.py:82-128 | With a clock that never runs backwards, in every run with restarts, any interval of the grant's window length holds at most max - 1 + c of its sends, c bounding the approvals outstanding at once. |
| RateLimit.BoundIsAttained | src/agency/store.py:82-128 | The bound is exact: for every limit, window and number of outstanding approvals some run brings all of max - 1 + c sends into one interval, so two approvals at once already exceed the configured limit. |
| RateLimit.LimitKeptIff | src/agency/store.py:82-128 | Every run keeps the limit configured in a grant if and only if no two approvals may be outstanding at once. |
| RateLimit.OneAtATimeKeepsTheLimit | src/agency/judgement.py:42-48 | With one approval at a time the configured limit holds exactly. |
| RateLimit.CheckLeavesRoom | src/agency/social_gate.py:76-97 | When the gate allows a send, every interval that reaches the present holds at most max - 1 sends. |
| RateLimit.StepKeeps | src/agency/store.py:82-128 | Every step keeps the bound with outstanding approvals counted against each interval that has not ended. |
| Budget.RecordedSpendIsBounded | src/agent_runtime/budget_policy.py:436-579 | In every run, a bucket's recorded spend of a day or a week exceeds the cap by at most the estimates of the other jobs that were running at the last admission, plus what was recorded since beyond its reservation: overruns, and costs carried over from another day or week. A period without admission gains exactly the latter. |
| Budget.OneJobAtATimeKeepsTheCap | src/agent_runtime/budget_policy.py:436-579 | With at most one job in flight only such excess takes a bucket over its cap; when jobs keep to their estimate and their day, the caps hold as configured, or nothing was admitted. |
| Budget.PeriodBound | src/agent_runtime/budget_policy.py:436-579 | The invariant behind both: recorded spend and running estimates together stay within the cap and those estimates. |
| Budget.NoExcess | src/agent_runtime/budget_policy.py:527-551 | Jobs that cost at most their estimate and are recorded on the day they were admitted leave no excess. |
| Budget.BoundIsAttained | src/agent_runtime/budget_policy.py:436-579 | The bound is exact: with c jobs in flight that keep to their estimates some run spends the day's cap plus the estimates of the other c - 1 jobs. |
| Budget.CapKeptIff | src/agent_runtime/budget_policy.py:436-579 | From an empty ledger, every run of jobs that keep to their estimates keeps the day's cap if and only if no two of them may be in flight at once. |
| Spend.ProtocolIsBudgetRun | src/agent_runtime/runtime.py:116-466 | In every interleaving of the runtime's operations with the budget gate in front of `create_job`, the ledger is that of a run of the budget model, which admits a job when it is created, finishes it when it is handed to the recorder, and drops it when it has closed without that. |
| Spend.SpendIsBounded | src/agent_runtime/budget_policy.py:436-617 | So in every run of the runtime a bucket's recorded spend of a day or a week exceeds the cap by at most the estimates of the other jobs open at its last creation, plus the excess since. |
| Spend.SpendStaysWithin | src/agent_runtime/budget_policy.py:436-617 | In every run that revives no finished job, with jobs that cost at most their estimate and are recorded on the day they were created, that spend stays within the cap and the estimates of the other jobs open at the bucket's last creation. |
| Spend.ReservedIffOpen | src/agent_runtime/runtime.py:353-466 | A job that was not revived has its estimate reserved exactly while it is unfinished or a run of it is staging. |
| Spend.RecordedWasReserved | src/agent_runtime/runtime.py:434-466 | What an open, never revived job records comes out of its reservation. |
| Spend.ClosedStaysClosed | src/agent_runtime/runtime.py:353-466 | A closed job can be recorded again only after an `enqueue` revived it. |
| Spend.GateMeans | src/agent_runtime/runtime.py:617-636 | The gate in front of `create_job`, on metadata, settings and ledger: a job without a budget kind passes; one with a kind passes exactly with a readable estimate that day and week of its bucket have room for, unless it is a review. |
| Spend.AppendedMeans | src/agent_runtime/budget_policy.py:594-617 | What a hand-over adds to the ledger: one charge of the job's kind at its observed cost, or else its estimate, if that is readable and not negative, and otherwise nothing. |
| Budget.GatedJobsRecord | src/agent_runtime/budget_policy.py:737-760 | A job that passed the gate records at most one charge, of its own kind and not negative, and no more than its estimate exactly when no readable observed cost is above it. |
| Budget.OverrunRecorded | src/agent_runtime/budget_policy.py:737-760 | A job admitted for one dollar that records two. |
| Budget.UtcCalendarIsSound | src/agent_runtime/budget_policy.py:543-546 | Moments of one UTC day lie in one ISO week. |
| Budget.FileBudgetUsageLedger.ListRecords | src/agent_runtime/budget_policy.py:513-525 | The records of the file in order, blank and corrupt lines skipped. |
| Budget.FileBudgetUsageLedger.Append | src/agent_runtime/budget_policy.py:507-511 | Adds exactly one record. |
| Budget.FileBudgetUsageLedger.SnapshotFor | src/agent_runtime/budget_policy.py:527-551 | The loop sums the bucket's records of the current day and of the current week. |
| Budget.FileBudgetUsageLedger.Evaluate | src/agent_runtime/budget_policy.py:566-579 | The gate's decision on what the ledger holds; what it means is `Budget.DecisionMeans`. |
| Budget.DecisionMeans | src/agent_runtime/budget_policy.py:327-480 | On settings and ledger: a review is put to the owner; a coding job is allowed if and only if the day's and the week's coding records leave room for its estimate under the two coding limits, any other kind with the other records and the loop limits; otherwise the first limit that is exceeded is the reason. |
| Budget.PreflightMeans | src/agent_runtime/runtime.py:617-636 | Which metadata are gated, on which estimate, and which are refused unjudged. |
| Budget.RecordMeans | src/agent_runtime/budget_policy.py:594-617 | What a completed job records: its observed cost, or without one its estimate. |
| Budget.RecordsConcat | src/agent_runtime/budget_policy.py:513-525 | The records of a file are those of its parts, in order; blank and corrupt lines hold none. |
| Budget.UtcCalendarMeans | src/agent_runtime/budget_policy.py:543-546 | A day is 24 hours from midnight, and a week seven days from a Monday. |
| Budget.TotalRemove | src/agent_runtime/budget_policy.py:527-551 | A job that leaves the running ones takes exactly its own estimate with it. |
| Budget.DayWindowIsCircular | src/agent_runtime/budget_policy.py:782-794 | The day window is the given number of hours after its start hour, around midnight if need be. |
| Inbound.PendingIsUnfinished | src/agent_runtime/telegram_inbound.py:150-177 | In every interleaving of handlers, with cancellations, restarts and deaths between record and mark, whether or not automatic replies are switched on, `list_pending` is exactly the recorded events whose handler did not finish, in arrival order. |
| Inbound.FinishedIsMarked | src/agent_runtime/telegram_inbound.py:132-148 | A finished event is processed or a dead letter, and its record still carries the event. |
| Inbound.RepliesAreAllowedAndSingle | src/agent_runtime/telegram_inbound.py:237-295 | The listener's own reply goes out at most once per event, only when automatic replies are switched on, and only to private chats and to groups that addressed it. |
| Inbound.RepliesPerArrival | src/agent_runtime/telegram_inbound.py:237-295 | Also when events arrive again under the same id, the replies to an id number at most its arrivals, and one of these came from a private chat or from a group that addressed it. |
| Inbound.MarkEffect | src/agent_runtime/telegram_inbound.py:132-148 | Marking changes the status of one record and nothing else. |
| Inbound.ArriveMeans | src/agent_runtime/telegram_inbound.py:237-273 | An arriving event has its responder awaited if and only if replying is enabled and it is private or addresses the account in a group; every other one is processed at once under that reason. |
| Inbound.AutoReplyMeans | src/agent_runtime/telegram_inbound.py:625-634 | Which chats and messages are answered. |
| Inbound.ResumeMeans | src/agent_runtime/telegram_inbound.py:275-295 | How each end of an await leaves record, handler and replies: an exception makes a dead letter, an empty or sent reply processes the event, a cancellation leaves it pending. |
| Inbound.ResumeKeeps | src/agent_runtime/telegram_inbound.py:275-295 | However an await ends, log, handlers and replies stay consistent. |
| Inbound.FilePersonalTelegramInboundEventStore.RecordPending | src/agent_runtime/telegram_inbound.py:127-130 | Appends one pending record. |
| Inbound.FilePersonalTelegramInboundEventStore.LatestRecords | src/agent_runtime/telegram_inbound.py:159-170 | The loop folds the lines into the latest record of each event, ids in first-seen order. |
| Inbound.FilePersonalTelegramInboundEventStore.MarkEvent | src/agent_runtime/telegram_inbound.py:132-148 | Appends a copy of the latest record with the new status; an unknown event is ignored. |
| Inbound.FilePersonalTelegramInboundEventStore.PendingEvents | src/agent_runtime/telegram_inbound.py:150-157 | The events whose latest status is pending. |
| Inbound.PersonalTelegramInboundListener.HandleUpdateAndReply | src/agent_runtime/telegram_inbound.py:237-273 | What is recorded and marked before the responder is awaited, and when it is awaited at all. |
| Inbound.PersonalTelegramInboundListener.AfterResponder | src/agent_runtime/telegram_inbound.py:275-279 | A reply is sent on exactly when it is not empty; otherwise the event is processed. |
| Inbound.PersonalTelegramInboundListener.AfterSend | src/agent_runtime/telegram_inbound.py:279-286 | The event is processed after the send, and a dead letter after an exception. |
| Maintenance.AutonomousRunsAreSpaced | src/bot/maintenance_guard.py:287-376 | In every run with a clock that never runs backwards and with each positive check's run recorded, any number of times, before the next check, the i-th and the j-th admitted cycles are at least j - i throttles apart. A cycle whose first record cannot be written is skipped by its caller and counts as not admitted. |
| Maintenance.ChecksAdmitSafely | src/bot/maintenance_guard.py:287-331 | After any such run, a check that admits comes a throttle after the last recorded run, an idle time after the last recorded activity, and never while an unreleased marker is within its time to live. |
| Maintenance.AdmissionIsSafe | src/bot/maintenance_guard.py:287-331 | The same for any state in which files and history agree. |
| Maintenance.AdmissionMeans | src/bot/maintenance_guard.py:287-331 | On files and clock: a run is admitted if and only if every marker is older than the time to live, the last activity is known and an idle time ago, and the state file is missing, or readable and a throttle ago; and which refusal has which reason. |
| Maintenance.ReleaseKeepsOthers | src/bot/maintenance_guard.py:124-133 | Releasing one token leaves every other holder's marker in force. |
| Maintenance.MorningMaintenanceGuard.MarkActive | src/bot/maintenance_guard.py:105-122 | Writes the token's own marker, or nothing when the write fails. |
| Maintenance.MorningMaintenanceGuard.Release | src/bot/maintenance_guard.py:124-133 | Removes the token's marker and no other. |
| Maintenance.MorningMaintenanceGuard.IsActive | src/bot/maintenance_guard.py:135-178 | Active exactly when some marker is within its time to live. |
| Maintenance.UserActivityGuard.ShouldAllow | src/bot/maintenance_guard.py:215-244 | Open if and only if the last activity is known and at least an idle time ago; the reason tells an unknown activity from a recent one. |
| Maintenance.UserActivityGuard.RecordActivity | src/bot/maintenance_guard.py:198-213 | The activity file after a recorded activity; a failed write leaves it as it was. |
| Maintenance.AutonomousSelfCodingRuntimeGuard.ShouldRun | src/bot/maintenance_guard.py:287-331 | The decision and its reason, from the three files. |
| Maintenance.AutonomousSelfCodingRuntimeGuard.RecordRun | src/bot/maintenance_guard.py:361-376 | The state file after a recorded run. |
| Autonomy.ActionsArePartitioned | src/agency/policy.py:125-160 | Every candidate action lands in exactly one of allowed and blocked: blocked are those that may not proceed, allowed the others, both in their order and unchanged but for the judgement flag. |
| Autonomy.VerdictMeans | src/agency/policy.py:50-122 | Which verdict falls, in terms of the candidate actions alone; AUTO if and only if nothing is blocked and there is no tier-3 action. |
| Autonomy.DecisionCarries | src/agency/policy.py:50-122 | What every decision carries, under each verdict and on the candidate actions alone: as allowed those that may proceed, as blocked those that may not, and the request for the last action that lacks only a grant. |
| Autonomy.AuditMeans | src/agency/policy.py:50-122 | What the audit event names under each verdict: the requested target, the first target of the actions the verdict is about, or the grant of the last side effect. |
| Autonomy.UsedMeans | src/agency/policy.py:125-160 | The grant that is used is the first in force for the last side effect that may proceed. |
| Autonomy.FoundIsFirst | src/agency/policy.py:174-184 | The search finds the first grant in force for target and scope, in the grants' own fields. |
| Autonomy.FindGrantComplete | src/agency/policy.py:174-184 | The search returns the first grant that covers target and scope, and none only when none does. |
| Autonomy.FindGrant | src/agency/policy.py:174-184 | The search loop finds that grant. |
| Autonomy.PolicyBuckets.EvaluateAction | src/agency/policy.py:125-160 | How one action changes the buckets. |
| Autonomy.AutonomyPolicy.Decide | src/agency/policy.py:38-122 | The loop over the actions and the decision drawn from the buckets. |
| Autonomy.RequestMeans | src/agency/policy.py:149-157 | A permission request is made exactly when some action lacks nothing but a grant, for target and scope of the last such action. |
| IntentBuilder.UngrantedIntents | src/agency/intent_builder.py:95-130 | Without grants every built intent is AUTO exactly when no desire carries a social term, otherwise BLOCKED under emergency stop and ASK_NIKITA without it, and never APPROVAL_REQUIRED. |
| IntentBuilder.IntentsAreBounded | src/agency/intent_builder.py:95-130 | A built intent has distinct action keys, exactly one action of each kind its signals call for, and a priority from 0 to 100; signals are refused exactly when event, a desire or an evidence entry is blank. |
| IntentBuilder.PriorityMeans | src/agency/intent_builder.py:95-349 | The priority is 50 and the sum of what each signal contributes, brought into 0 to 100. |
| IntentBuilder.TruncateMeans | src/agency/intent_builder.py:166-166 | A fractional contribution is cut off towards zero. |
| IntentBuilder.SumIgnoresOrder | src/agency/intent_builder.py:185-349 | The order of the signals of one kind does not matter to it. |
| IntentBuilder.PromisesFollowActions | src/agency/intent_builder.py:185-376 | A built intent expects a spec, a question or a memory candidate, and needs opinions or memory, exactly when one of its candidate actions calls for it. |
| IntentBuilder.StandardMeans | src/agency/intent_builder.py:132-349 | The fixed fields of the actions, by kind: capability, target, tier, side effect and scope. |
| IntentBuilder.SendIffSocial | src/agency/intent_builder.py:240-266 | A send is a candidate exactly when some desire carries a social term. |
| IntentBuilder.AppendBuilds | src/agency/intent_builder.py:352-356 | Appending an action whose key is taken changes nothing; otherwise it adds one kind. |
| IntentBuilder.PassesBuild | src/agency/intent_builder.py:95-376 | The five passes and the final one add exactly the kinds the signals call for; the knowledge base stands in for web research. |
| IntentBuilder.IntentBuildState.AppendAction | src/agency/intent_builder.py:352-356 | The search for a taken key, then the append. |
| IntentBuilder.IntentBuildState.ApplyAffect | src/agency/intent_builder.py:132-183 | Actions and priority after the affect pass. |
| IntentBuilder.IntentBuildState.ApplyHomeostasis | src/agency/intent_builder.py:185-218 | The same for the corrections. |
| IntentBuilder.IntentBuildState.ApplyDesires | src/agency/intent_builder.py:220-280 | The same for the desires; a blank one raises. |
| IntentBuilder.IntentBuildState.ApplyLearningSignals | src/agency/intent_builder.py:282-316 | The same for the learning signals. |
| IntentBuilder.IntentBuildState.ApplyDaemonSignals | src/agency/intent_builder.py:318-349 | The same for the daemon signals. |
| IntentBuilder.IntentBuildState.FinalizeState | src/agency/intent_builder.py:363-376 | Adds the knowledge-base search when there is no web research. |
| IntentBuilder.PersonalityDrivenIntentBuilder.Build | src/agency/intent_builder.py:95-130 | The passes in order, the clamp, and the errors. |
| Staging.RoundTrip | src/agent_runtime/retrieval.py:279-333 | Reading the raw file of any list of regular entries, line ends translated first, gives one record per entry, in order, with its statement, its confidence and the number of its own header line. |
| Staging.AppendIsRead | src/agent_runtime/retrieval.py:279-333 | Whatever raw text a file holds, entries appended to it are read as in a file of their own, with line numbers shifted by the lines before them; an unended last line is ended first, and a final carriage return joins the entry's first newline. |
| Staging.EntryIsRead | src/agent_runtime/retrieval.py:289-323 | After any lines, an appended entry adds exactly its own record. |
| Staging.AnyEntryIsRead | src/agent_runtime/retrieval.py:289-323 | Any entry, of whatever blanks and confidence, adds the record of its stripped statement and of what its confidence reads as, or none when nothing is left. |
| Staging.PaddedIsRead | src/agent_runtime/retrieval.py:308-312 | A statement between blanks is read without them. |
| Staging.HeaderlessIsRead | src/agent_runtime/retrieval.py:286-333 | Statements before any header make one record, of the last one, at the first one's line. |
| Staging.ConfidenceMeans | src/agent_runtime/retrieval.py:414-419 | An unreadable confidence is the default, and any other the nearest in [0, 1]. |
| Staging.StripMeans | src/agent_runtime/retrieval.py:308-319 | Stripping takes blanks off both ends, and all of them. |
| Staging.CharactersMean | src/agent_runtime/retrieval.py:286-319 | Which characters end a line and which are blanks, by code point. |
| Staging.HeaderStarts | src/agent_runtime/retrieval.py:289-306 | A header line ends the record before it and starts one with its own number and the default confidence. |
| Staging.BodyIsRead | src/agent_runtime/retrieval.py:289-323 | The same for an entry without its leading blank line. |
| Staging.ScanHead | src/agent_runtime/retrieval.py:289-319 | What the reader's variables hold once it has read an entry's confidence line. |
| Staging.SourceAwareRecordsFromStagingFile | src/agent_runtime/retrieval.py:279-333 | The line loop and its final flush compute what `Parse` names. |
| Staging.StagingFile.WriteEntry | scripts/smoke_staging_review.py:75-101 | The lines of the entry, joined and appended to the file. |
| Staging.HeaderMeans | scripts/smoke_staging_review.py:88-90 | A header holds kind, scope and time of its entry, in this order. |
| Staging.JoinedIsTerminated | scripts/smoke_staging_review.py:87-101 | What is appended is each line of the entry, each followed by a newline. |
| Staging.SplitTerminated | src/agent_runtime/retrieval.py:286-288 | Splitting a text of terminated lines gives back these lines. |
| Staging.SplitAppend | src/agent_runtime/retrieval.py:286-288 | Splitting distributes over appending to a text whose last line is ended. |
| Staging.TranslateAppend | src/agent_runtime/retrieval.py:286-288 | Translating line ends distributes over an appended text that starts with a newline and holds no carriage return, except that its first newline belongs to a final carriage return. |
| Staging.TallyIsFaithful | src/agent_runtime/retrieval.py:414-419 | There is a text form of confidences as the round trip assumes it. |
| Browser.FindDomainConcentration | src/collectors/browser.py:386-416 | The nested-loop scan reports a window if and only if some three visits lie within 7200 seconds of each other; then it is the window of the earliest qualifying anchor, with the exact number of its visits, ties included. |
| Browser.FullWindowIffCluster | src/collectors/browser.py:396-407 | Some window holds three visits if and only if three visits lie pairwise within two hours. |
| Browser.SpanIsWindow | src/collectors/browser.py:397-407 | The span the inner loop finds is the whole window of its anchor whenever that window is full. |
| Browser.Deduplicate | src/collectors/browser.py:296-315 | The loop over the entries builds what `Deduplicated` names. |
| Browser.DeduplicationMeans | src/collectors/browser.py:296-315 | One record per URL, in first-seen order, with its visits summed and its latest visit time. |
| Browser.DeduplicationKeepsFirst | src/collectors/browser.py:307-314 | The remaining fields are those of the URL's first entry. |
| Browser.FirstSeenMeans | src/collectors/browser.py:296-315 | Every URL occurs in the result, and only once. |
| Browser.VisitsAreConserved | src/collectors/browser.py:296-315 | No visit is lost or counted twice. |
| ScrollOffsets.CapturedWholeIff | src/agent_runtime/computer_use.py:2628-2640 | The viewports at the offsets cover every pixel row of the page if and only if its bottom is at most seven steps down. |
| ScrollOffsets.GapExample | src/agent_runtime/computer_use.py:2628-2640 | A page of 2086 pixels in a viewport of 300 has a row that is not captured. |
| ScrollOffsets.OffsetsSpanThePage | src/agent_runtime/computer_use.py:2628-2640 | The offsets ascend strictly from 0 to the bottom; there are as many as the page has stops, or eight. |
| ScrollOffsets.NoGaps | src/agent_runtime/computer_use.py:2628-2638 | With at most eight stops every pixel row lies in the viewport of some offset. |
| ScrollOffsets.GapAfterThinning | src/agent_runtime/computer_use.py:2639-2640 | With more than eight stops some pixel row lies in none. |
| ScrollOffsets.PicksAscend | src/agent_runtime/computer_use.py:2639-2640 | With more than eight stops rounding selects eight different indexes, from the first to the last. |
| ScrollOffsets.ResultSectionScrollOffsets | src/agent_runtime/computer_use.py:2628-2640 | Range, clamping, removal of repetitions, sorting and thinning compute exactly these offsets. |
| ScrollOffsets.ClampDistinct | src/agent_runtime/computer_use.py:2636-2636 | Clamped and without repetitions, the range is the page's stops. |
| ScrollOffsets.Pick | src/agent_runtime/computer_use.py:2639-2640 | The thinned list holds the offsets at the rounded indexes. |
| Sorting.SortedIsOrderedPermutation | src/collectors/browser.py:396-396 | Sorting by a key rearranges the elements into ascending order. |

## Left out

- Runtime.AgentRuntime.CreateJob: the budget gate's answer is a parameter; `budget.dfy` models the gate, and `spend.dfy` puts it in front of the call. Profiles and context packs are reduced to the worker's name.
- Runtime.AgentRuntime.AfterWorker: observability payloads, failure metadata and the wording of the timeout capsule are not modelled.
- Runtime.InMemoryAgentEventStream.EventsFor: event payloads and timestamps are not modelled.
- EventFiles.FileAgentEventStream.Emit: an event line is appended whole or not at all.
- Protocol.StepEffect: `wait_background` and the status queries only read and are not operations; a fresh job id is an id not yet stored; a store or event stream that raises is not modelled; half-written records are, in `file_store.dfy`.
- FileStore.FileAgentJobStore.ReadAll: the order of the listing is arbitrary, so the order of lists and of equally old matches is not stated; the JSON text is any text that reads back.
- ExplorerBridge.ResultIsReused: one caller only; background delivery, session callbacks and rendering are not modelled. Creating the fingerprint is, by equal arguments giving equal values.
- Social.FileSocialPermissionStore.ReadLine: lines are already parsed; a stored time that does not parse, which the counter skips, does not occur.
- RateLimit.SlidingWindowBound: the grant keeps its limit and window, and sends are recorded through approvals only; the bound is on recorded sends, and one whose process dies before recording it is in no count.
- Budget.FileBudgetUsageLedger.Evaluate: providers, models, effort and status lines of a route are not modelled; a ledger line that is cut short is a corrupt line of the file.
- Budget.DayWindowIsCircular: the resource policy around the day window, a chain of threshold tests, is not modelled.
- Inbound.PersonalTelegramInboundListener.HandleUpdateAndReply: reading an update and building the capsule are not modelled; the ingestor is merged into the listener; without a responder or with the ingestor switched off nothing is replied, and the runs do not include that.
- Inbound.PendingIsUnfinished: no two events share an id there, nor in `Inbound.FinishedIsMarked`; events that arrive again are covered by `Inbound.RepliesPerArrival`.
- Spend.ProtocolIsBudgetRun: the ledger's recorder appends before it suspends, as the file ledger does; a ledger write that fails is not modelled.
- Maintenance.MorningMaintenanceGuard.IsActive: owners, metadata and failing directory scans are not modelled; a marker without a readable payload is active by its file time.
- IntentBuilder.PersonalityDrivenIntentBuilder.Build: the drive vector and the rendered drivers, constraints and evidence are not modelled; the term tests on a desire and the class of an emotion are inputs.
- Staging.RoundTrip: the text form of a float is a parameter that reads back, the writer's newlines are not translated, as on Linux; which source a statement is attributed to, and the scoring of recall, are not modelled.
- Browser.FindDomainConcentration: of the rendered pattern only its count and its two hours are modelled, the calendar hour of a time being a parameter; reading the browser databases, topics and summaries are not modelled.
- ScrollOffsets.ResultSectionScrollOffsets: of int(viewport_height * 0.85) only its range is used, so no float product is modelled.
- Network, browser control, subprocesses, Telegram, SQL and embedded page scripts are foreign calls.
- The tool gateway, approvals, the registry, profiles, the capability graph and the risk classification are membership tests and tables: a statement about one would say no more than the table does.
- The self-coding runner of the bridge has the same shape as the explorer runner and is not repeated.
