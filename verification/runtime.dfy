/** AgentRuntime (src/agent_runtime/runtime.py), cut at its suspension points.

    An async method runs without interruption between two awaits of a worker, the memory
    sink or the usage recorder. Each such stretch is one function on `Core`, the state the
    runtime object owns, and one method of class AgentRuntime that implements it. What a
    coroutine keeps in its locals across an await is an argument of the next stretch. */
module Runtime {
  import opened Common
  import opened Jobs
  import opened JobStore

  /** `background` maps a job to the number of its last background run. */
  datatype Core = Core(store: Store, log: seq<Event>, workers: set<string>, background: map<Id, nat>)

  datatype Config = Config(memorySink: bool, budgetRecorder: bool, maxActive: int, maxQueued: int)

  const ACTIVE_STATUSES: set<Status> := {Running, WaitingUser}
  const QUEUE_STATUSES: set<Status> := {Queued, AwaitingInput}

  function Emit(c: Core, id: Id, kind: EventKind, message: string): Core {
    c.(log := c.log + [Event(id, kind, message)])
  }

  function SaveJob(c: Core, job: Job): Core { c.(store := Put(c.store, job)) }

  /** Save a record and emit the event that goes with it. */
  function Commit(c: Core, job: Job, kind: EventKind, message: string): Core {
    Emit(SaveJob(c, job), job.id, kind, message)
  }

  /* ---- create_job ---- */

  datatype CreateOutcome = Existing(job: Job) | Created(job: Job) | Refused(reason: string)

  /** The chat's jobs in one of the given statuses. */
  function Occupying(s: Store, statuses: set<Status>, chat: int): set<Id> {
    set id | id in s.jobs && s.jobs[id].status in statuses && s.jobs[id].origin.chat == chat
  }

  function LimitReached(cfg: Config, s: Store, job: Job): Option<string> {
    if job.status in ACTIVE_STATUSES && |Occupying(s, ACTIVE_STATUSES, job.origin.chat)| >= cfg.maxActive
    then Some("active job limit exceeded for chat")
    else if job.status in QUEUE_STATUSES && |Occupying(s, QUEUE_STATUSES, job.origin.chat)| >= cfg.maxQueued
    then Some("queued job limit exceeded for chat")
    else None
  }

  /** `preflight` is what the budget gate answers: None lets the job pass. */
  function CreateSpec(cfg: Config, c: Core, job: Job, preflight: Option<string>): (Core, CreateOutcome)
    requires ValidStore(c.store)
  {
    var existing := Find(c.store, job.origin.fingerprint);
    if existing.Some? && !Terminal(existing.value.status) then (c, Existing(existing.value))
    else if preflight.Some? then (c, Refused(preflight.value))
    else
      var limit := LimitReached(cfg, c.store, job);
      if limit.Some? then (c, Refused(limit.value))
      else (Commit(c, job, CREATED, "Created job"), Created(job))
  }

  /* ---- single-stretch operations on one job ---- */

  function EnqueueSpec(c: Core, id: Id, now: Time): Core {
    if id !in c.store.jobs then c else SaveJob(c, WithStatus(c.store.jobs[id], Queued, now))
  }

  function CompleteSpec(c: Core, id: Id, capsule: Capsule, now: Time): Core {
    if id !in c.store.jobs then c else SaveJob(c, WithStatus(c.store.jobs[id], Done, now, "", Some(capsule)))
  }

  function FailSpec(c: Core, id: Id, reason: string, now: Time): Core {
    if id !in c.store.jobs then c else SaveJob(c, WithStatus(c.store.jobs[id], Failed, now, reason))
  }

  function AttachFollowupSpec(c: Core, id: Id, text: string): Core {
    if id !in c.store.jobs || Terminal(c.store.jobs[id].status) then c
    else
      var job := c.store.jobs[id];
      Commit(c, job.(followups := job.followups + [text]), FOLLOWUP_ATTACHED,
             if |text| <= 200 then text else text[..200])
  }

  function AttachArtifactSpec(c: Core, id: Id, artifact: string): Core {
    if id !in c.store.jobs || Terminal(c.store.jobs[id].status) then c
    else
      var job := c.store.jobs[id];
      Commit(c, job.(artifacts := job.artifacts + [artifact]), ARTIFACT_ATTACHED, artifact)
  }

  /* ---- start, start_background and the run of a worker ---- */

  datatype StartOutcome =
    | NoSuchJob
    | NotStarted(job: Job)            // terminal, or a live background task exists
    | WorkerUnknown(job: Job)         // KeyError after the job was saved as running
    | Launched(running: Job)

  function MarkRunning(c: Core, job: Job, now: Time): (Core, Job) {
    var running := WithStatus(job, Running, now);
    (Commit(c, running, STARTED, "Agent job started"), running)
  }

  function StartSpec(c: Core, id: Id, now: Time): (Core, StartOutcome) {
    if id !in c.store.jobs then (c, NoSuchJob)
    else
      var job := c.store.jobs[id];
      if Terminal(job.status) then (c, NotStarted(job))
      else
        var (c', running) := MarkRunning(c, job, now);
        (c', if running.origin.worker in c.workers then Launched(running) else WorkerUnknown(running))
  }

  /** `live` holds the background runs that are not done; a new one gets number `task`. */
  function StartBackgroundSpec(c: Core, id: Id, task: nat, live: set<nat>, now: Time): (Core, StartOutcome) {
    if id in c.background && c.background[id] in live then
      (c, if id in c.store.jobs then NotStarted(c.store.jobs[id]) else NoSuchJob)
    else if id !in c.store.jobs then (c, NoSuchJob)
    else
      var job := c.store.jobs[id];
      if Terminal(job.status) then (c, NotStarted(job))
      else
        var (c', running) := MarkRunning(c, job, now);
        (c'.(background := c'.background[id := task]), Launched(running))
  }

  /** How the await of the worker ends. */
  datatype Outcome =
    | Returned(capsule: Capsule)
    | Raised(message: string, partial: Option<Capsule>)
    | TimedOut(reason: string)
    | TaskCanceled

  datatype Finish =
    | Ended(job: Job)                 // _run_worker returns this record
    | Finished(completed: Job)        // saved as done; memory staging comes next

  function TimeoutCapsule(reason: string): Capsule { Capsule(reason, [], []) }

  /** _run_worker from the end of the worker's await to the next suspension. `running` is
      the record as it was when the run started. */
  function AfterWorkerSpec(c: Core, running: Job, o: Outcome, now: Time): (Core, Finish)
    requires running.id in c.store.jobs
  {
    var current := c.store.jobs[running.id];
    match o
    case TaskCanceled =>
      if Terminal(current.status) then (c, Ended(current))
      else
        var canceled := WithStatus(current, Canceled, now, "background task canceled");
        (Commit(c, canceled, CANCELED, canceled.error), Ended(canceled))
    case TimedOut(reason) =>
      var failed := WithStatus(running, Failed, now, reason, Some(TimeoutCapsule(reason)));
      (Commit(c, failed, FAILED, reason), Ended(failed))
    case Raised(message, partial) =>
      if Terminal(current.status) then (c, Ended(current))
      else
        var failed := WithStatus(current, Failed, now, message, partial);
        (Commit(c, failed, FAILED, message), Ended(failed))
    case Returned(capsule) =>
      if Terminal(current.status) then (c, Ended(current))
      else
        var completed := WithStatus(running, Done, now, "", Some(capsule));
        (Commit(c, completed, COMPLETED, capsule.summary), Finished(completed))
  }

  /** The events that follow memory staging and usage recording; None is an exception. */
  function AfterStagingSpec(c: Core, id: Id, count: Option<int>): Core {
    if count.None? then Emit(c, id, PROGRESS, "Memory staging failed")
    else if count.value > 0 then Emit(c, id, MEMORY_STAGED, "Memory candidates staged")
    else c
  }

  function AfterRecordingSpec(c: Core, id: Id, count: Option<int>): Core {
    if count.None? then Emit(c, id, PROGRESS, "Budget usage recording failed")
    else if count.value > 0 then Emit(c, id, PROGRESS, "Budget usage recorded")
    else c
  }

  /* ---- cancel ---- */

  datatype CancelOutcome = NothingToCancel | AwaitingWorker(job: Job) | CanceledNow(job: Job)

  function CancelEndSpec(c: Core, job: Job, reason: string, now: Time): (Core, Job) {
    var canceled := WithStatus(job, Canceled, now, if reason != "" then reason else "canceled");
    (Commit(c, canceled, CANCELED, canceled.error), canceled)
  }

  function CancelBeginSpec(c: Core, id: Id, reason: string, now: Time): (Core, CancelOutcome) {
    if id !in c.store.jobs then (c, NothingToCancel)
    else
      var job := c.store.jobs[id];
      if job.origin.worker in c.workers && job.status.Running? then (c, AwaitingWorker(job))
      else
        var (c', canceled) := CancelEndSpec(c, job, reason, now);
        (c', CanceledNow(canceled))
  }

  /* ---- recover_running_jobs ---- */

  function RecoverOne(c: Core, job: Job, reason: string, now: Time): Core {
    Commit(c, WithStatus(job, NeedsReview, now, reason), RECOVERED, reason)
  }

  function RecoverAll(c: Core, jobs: seq<Job>, reason: string, now: Time): Core {
    if jobs == [] then c
    else RecoverOne(RecoverAll(c, jobs[..|jobs| - 1], reason, now), jobs[|jobs| - 1], reason, now)
  }

  function RecoverSpec(c: Core, reason: string, now: Time): Core
    requires ValidStore(c.store)
  {
    RecoverAll(c, Listed(c.store, ACTIVE_STATUSES), reason, now)
  }

  function RecoveredRecord(job: Job, visited: bool, reason: string, now: Time): Job {
    if visited then WithStatus(job, NeedsReview, now, reason) else job
  }

  /** The records RecoverAll visits become NEEDS_REVIEW, every other record stays. */
  lemma {:induction false} RecoverAllEffect(c: Core, jobs: seq<Job>, reason: string, now: Time)
    requires ValidStore(c.store)
    requires forall j :: j in jobs ==> j.id in c.store.jobs && c.store.jobs[j.id] == j
    ensures var c' := RecoverAll(c, jobs, reason, now);
            && ValidStore(c'.store) && c'.store.order == c.store.order
            && c'.workers == c.workers && c'.background == c.background
            && c'.store.jobs.Keys == c.store.jobs.Keys
            && (forall id :: id in c.store.jobs ==>
                  c'.store.jobs[id] == RecoveredRecord(c.store.jobs[id], c.store.jobs[id] in jobs, reason, now))
  {
    if jobs != [] {
      var front, last := jobs[..|jobs| - 1], jobs[|jobs| - 1];
      assert jobs == front + [last];
      RecoverAllEffect(c, front, reason, now);
    }
  }

  /** Recovery turns exactly the RUNNING and WAITING_USER jobs into NEEDS_REVIEW. */
  lemma RecoverEffect(c: Core, reason: string, now: Time)
    requires ValidStore(c.store)
    ensures var c' := RecoverSpec(c, reason, now);
            && ValidStore(c'.store) && c'.store.order == c.store.order
            && c'.workers == c.workers && c'.background == c.background
            && c'.store.jobs.Keys == c.store.jobs.Keys
            && (forall id :: id in c.store.jobs ==>
                  c'.store.jobs[id]
                      == RecoveredRecord(c.store.jobs[id], c.store.jobs[id].status in ACTIVE_STATUSES, reason, now))
  {
    ValuesAreJobs(c.store);
    FilterIn(Values(c.store), InStatuses(ACTIVE_STATUSES));
    RecoverAllEffect(c, Listed(c.store, ACTIVE_STATUSES), reason, now);
    forall id | id in c.store.jobs
      ensures c.store.jobs[id] in Listed(c.store, ACTIVE_STATUSES) <==> c.store.jobs[id].status in ACTIVE_STATUSES
    {
      assert c.store.jobs[id] in Values(c.store);
    }
  }

  /* ---- what the calls do and answer, on the stored records ---- */

  /** The statuses of a job that is not finished. */
  const OPEN_STATUSES: set<Status> := {Draft, AwaitingInput, Queued, Running, WaitingUser}

  /** An unfinished stored job has the fingerprint. */
  ghost predicate Claims(s: Store, fingerprint: string, id: Id) {
    id in s.jobs && s.jobs[id].origin.fingerprint == fingerprint && s.jobs[id].status in OPEN_STATUSES
  }

  /** The job would be active, and the chat has as many active jobs as it may have. */
  ghost predicate ActiveFull(cfg: Config, s: Store, job: Job) {
    && job.status in {Running, WaitingUser}
    && |set id | id in s.jobs && s.jobs[id].origin.chat == job.origin.chat
                 && s.jobs[id].status in {Running, WaitingUser}|
       >= cfg.maxActive
  }

  ghost predicate QueueFull(cfg: Config, s: Store, job: Job) {
    && job.status in {Queued, AwaitingInput}
    && |set id | id in s.jobs && s.jobs[id].origin.chat == job.origin.chat
                 && s.jobs[id].status in {Queued, AwaitingInput}|
       >= cfg.maxQueued
  }

  lemma LimitMeans(cfg: Config, s: Store, job: Job)
    ensures var limit := LimitReached(cfg, s, job);
            && (limit == Some("active job limit exceeded for chat") <==> ActiveFull(cfg, s, job))
            && (limit == Some("queued job limit exceeded for chat") <==> QueueFull(cfg, s, job))
            && (limit == None <==> !ActiveFull(cfg, s, job) && !QueueFull(cfg, s, job))
  {
    var chat := job.origin.chat;
    assert Occupying(s, ACTIVE_STATUSES, chat)
        == set id | id in s.jobs && s.jobs[id].origin.chat == chat && s.jobs[id].status in {Running, WaitingUser};
    assert Occupying(s, QUEUE_STATUSES, chat)
        == set id | id in s.jobs && s.jobs[id].origin.chat == chat && s.jobs[id].status in {Queued, AwaitingInput};
    assert !("active job limit exceeded for chat" == "queued job limit exceeded for chat") by {
      assert "active job limit exceeded for chat"[0] != "queued job limit exceeded for chat"[0];
    }
  }

  /** What `create_job` answers, on the store before the call. The unfinished job of the
      fingerprint is answered as it is stored, the newest if there are several; without one the
      budget refuses first, then the limit of the job's own group; and otherwise exactly the
      new job is added and announced. */
  lemma CreateAnswers(cfg: Config, c: Core, job: Job, preflight: Option<string>)
    requires ValidStore(c.store)
    ensures var (c', o) := CreateSpec(cfg, c, job, preflight);
            var claimed := exists id :: Claims(c.store, job.origin.fingerprint, id);
            && (o.Existing? <==> claimed)
            && (o.Refused? <==>
                  !claimed && (preflight.Some? || ActiveFull(cfg, c.store, job) || QueueFull(cfg, c.store, job)))
            && (o.Existing? ==>
                  && c' == c && Claims(c.store, job.origin.fingerprint, o.job.id) && c.store.jobs[o.job.id] == o.job
                  && forall id :: Claims(c.store, job.origin.fingerprint, id) ==> !Newer(c.store.jobs[id], o.job))
            && (o.Refused? ==>
                  && c' == c
                  && (if preflight.Some? then o.reason == preflight.value
                      else if ActiveFull(cfg, c.store, job) then o.reason == "active job limit exceeded for chat"
                      else o.reason == "queued job limit exceeded for chat"))
            && (o.Created? ==>
                  && o.job == job && c'.store.jobs == c.store.jobs[job.id := job]
                  && c'.log == c.log + [Event(job.id, CREATED, "Created job")]
                  && c'.workers == c.workers && c'.background == c.background)
  {
    var fingerprint := job.origin.fingerprint;
    FindPrefersUnfinished(c.store, fingerprint);
    LimitMeans(cfg, c.store, job);
    forall id
      ensures Claims(c.store, fingerprint, id)
         <==> Matches(c.store, fingerprint, id) && !Terminal(c.store.jobs[id].status)
    {
    }
  }

  /** `start`: a finished job is answered as it is; any other is stored RUNNING, keeps its first
      start, and is announced, before its worker is looked up. */
  lemma StartAnswers(c: Core, id: Id, now: Time)
    requires ValidStore(c.store)
    ensures var (c', o) := StartSpec(c, id, now);
            if id !in c.store.jobs then c' == c && o == NoSuchJob
            else if c.store.jobs[id].status !in OPEN_STATUSES then c' == c && o == NotStarted(c.store.jobs[id])
            else Began(c, c', id, now) && o == (if c.store.jobs[id].origin.worker in c.workers
                                                then Launched(c'.store.jobs[id]) else WorkerUnknown(c'.store.jobs[id]))
                 && c'.background == c.background
  {
  }

  /** The job is stored RUNNING, and nothing else is changed but the log. */
  ghost predicate Began(c: Core, c': Core, id: Id, now: Time)
    requires id in c.store.jobs
  {
    && id in c'.store.jobs
    && c'.store.jobs == c.store.jobs[id := c'.store.jobs[id]] && c'.store.order == c.store.order
    && c'.workers == c.workers && c'.log == c.log + [Event(id, STARTED, "Agent job started")]
    && var a, b := c.store.jobs[id], c'.store.jobs[id];
       b == a.(status := Running, updatedAt := now, startedAt := if a.startedAt == None then Some(now) else a.startedAt)
  }

  /** `start_background`: the same, beside the test for a live task, and the new task is entered. */
  lemma StartBackgroundAnswers(c: Core, id: Id, task: nat, live: set<nat>, now: Time)
    requires ValidStore(c.store)
    ensures var (c', o) := StartBackgroundSpec(c, id, task, live, now);
            if id !in c.store.jobs then c' == c && o == NoSuchJob
            else if (id in c.background && c.background[id] in live) || c.store.jobs[id].status !in OPEN_STATUSES
            then c' == c && o == NotStarted(c.store.jobs[id])
            else Began(c, c', id, now) && o == Launched(c'.store.jobs[id]) && c'.background == c.background[id := task]
  {
  }

  /** Only the job's record and the log differ: the record is `job`, announced by one event. */
  ghost predicate Rewritten(c: Core, c': Core, job: Job, kind: EventKind, message: string) {
    && c'.store.jobs == c.store.jobs[job.id := job] && c'.store.order == c.store.order
    && c'.workers == c.workers && c'.background == c.background
    && c'.log == c.log + [Event(job.id, kind, message)]
  }

  /** How a run ends, by the outcome of its worker. Except after a timeout a finished job is left
      alone; otherwise the record that is answered is stored and announced: a result completes
      the record the run started from, a timeout fails it, an exception or a cancellation ends
      the current record. */
  lemma AfterWorkerAnswers(c: Core, running: Job, o: Outcome, now: Time)
    requires ValidStore(c.store) && running.id in c.store.jobs
    ensures var (c', f) := AfterWorkerSpec(c, running, o, now);
            var current := c.store.jobs[running.id];
            if !o.TimedOut? && current.status !in OPEN_STATUSES then c' == c && f == Ended(current)
            else
              match o
              case Returned(capsule) =>
                var done := running.(status := Done, updatedAt := now, finishedAt := Some(now),
                                     result := Some(capsule));
                Rewritten(c, c', done, COMPLETED, capsule.summary) && f == Finished(done)
              case TimedOut(reason) =>
                var failed := running.(status := Failed, updatedAt := now, finishedAt := Some(now),
                                       result := Some(Capsule(reason, [], [])),
                                       error := if reason == "" then running.error else reason);
                Rewritten(c, c', failed, FAILED, reason) && f == Ended(failed)
              case Raised(message, partial) =>
                var failed := current.(status := Failed, updatedAt := now, finishedAt := Some(now),
                                       result := if partial == None then current.result else partial,
                                       error := if message == "" then current.error else message);
                Rewritten(c, c', failed, FAILED, message) && f == Ended(failed)
              case TaskCanceled =>
                var canceled := current.(status := Canceled, updatedAt := now, finishedAt := Some(now),
                                         error := "background task canceled");
                Rewritten(c, c', canceled, CANCELED, "background task canceled") && f == Ended(canceled)
  {
  }

  /** `cancel` on a record: it is stored CANCELED with the reason, if any, and announced so. */
  lemma CancelEndAnswers(c: Core, job: Job, reason: string, now: Time)
    requires job.id in c.store.jobs
    ensures var (c', r) := CancelEndSpec(c, job, reason, now);
            var error := if reason == "" then "canceled" else reason;
            && r == job.(status := Canceled, updatedAt := now, finishedAt := Some(now), error := error)
            && Rewritten(c, c', r, CANCELED, error)
  {
  }

  /** `cancel` waits for the worker of a RUNNING job that is registered, with the record it read;
      any other job it cancels at once. */
  lemma CancelBeginAnswers(c: Core, id: Id, reason: string, now: Time)
    requires ValidStore(c.store)
    ensures var (c', o) := CancelBeginSpec(c, id, reason, now);
            if id !in c.store.jobs then c' == c && o == NothingToCancel
            else if c.store.jobs[id].status == Running && c.store.jobs[id].origin.worker in c.workers
            then c' == c && o == AwaitingWorker(c.store.jobs[id])
            else (c', o) == (CancelEndSpec(c, c.store.jobs[id], reason, now).0,
                             CanceledNow(CancelEndSpec(c, c.store.jobs[id], reason, now).1))
  {
  }

  /** What the calls do that end in one stretch: which record is stored, and which event is emitted. */
  lemma SilentCallsMean(c: Core, id: Id, capsule: Capsule, reason: string, now: Time)
    requires ValidStore(c.store)
    ensures id !in c.store.jobs ==>
              && EnqueueSpec(c, id, now) == c && CompleteSpec(c, id, capsule, now) == c
              && FailSpec(c, id, reason, now) == c
    ensures id in c.store.jobs ==>
              var j := c.store.jobs[id];
              && EnqueueSpec(c, id, now).store.jobs == c.store.jobs[id := j.(status := Queued, updatedAt := now)]
              && CompleteSpec(c, id, capsule, now).store.jobs
                 == c.store.jobs[id := j.(status := Done, updatedAt := now, finishedAt := Some(now),
                                          result := Some(capsule))]
              && FailSpec(c, id, reason, now).store.jobs
                 == c.store.jobs[id := j.(status := Failed, updatedAt := now, finishedAt := Some(now),
                                          error := if reason == "" then j.error else reason)]
    ensures forall c' ::
              c' in {EnqueueSpec(c, id, now), CompleteSpec(c, id, capsule, now), FailSpec(c, id, reason, now)}
              ==> c'.log == c.log && c'.workers == c.workers && c'.background == c.background
  {
  }

  /** The two attachments: to the end of their list, announced by at most 200 characters of a
      follow-up and by the artifact itself; a finished job takes none. */
  lemma AttachMeans(c: Core, id: Id, text: string)
    requires ValidStore(c.store)
    ensures id !in c.store.jobs || c.store.jobs[id].status !in OPEN_STATUSES ==>
              AttachFollowupSpec(c, id, text) == c && AttachArtifactSpec(c, id, text) == c
    ensures id in c.store.jobs && c.store.jobs[id].status in OPEN_STATUSES ==>
              var j := c.store.jobs[id];
              && Rewritten(c, AttachFollowupSpec(c, id, text), j.(followups := j.followups + [text]),
                           FOLLOWUP_ATTACHED, text[..Min(200, |text|)])
              && Rewritten(c, AttachArtifactSpec(c, id, text), j.(artifacts := j.artifacts + [text]),
                           ARTIFACT_ATTACHED, text)
  {
    assert |text| <= 200 ==> text[..Min(200, |text|)] == text;
  }

  /** The events after memory staging and usage recording: of a failure, and of a positive count. */
  lemma EffectEventsMean(c: Core, id: Id, count: Option<int>)
    ensures AfterStagingSpec(c, id, count)
         == c.(log := c.log + (match count
                               case None => [Event(id, PROGRESS, "Memory staging failed")]
                               case Some(n) =>
                                 if n > 0 then [Event(id, MEMORY_STAGED, "Memory candidates staged")] else []))
    ensures AfterRecordingSpec(c, id, count)
         == c.(log := c.log + (match count
                               case None => [Event(id, PROGRESS, "Budget usage recording failed")]
                               case Some(n) => if n > 0 then [Event(id, PROGRESS, "Budget usage recorded")] else []))
  {
  }

  /** One recovery announces the records it moves in their order, each with the reason. */
  lemma {:induction false} RecoverAnnounces(c: Core, jobs: seq<Job>, reason: string, now: Time)
    ensures RecoverAll(c, jobs, reason, now).log
         == c.log + seq(|jobs|, i requires 0 <= i < |jobs| => Event(jobs[i].id, RECOVERED, reason))
  {
    if jobs != [] {
      RecoverAnnounces(c, jobs[..|jobs| - 1], reason, now);
    }
  }

  /* ---- the chat-limit counters ---- */

  function Occupies(s: Store, statuses: set<Status>, chat: int): Id -> bool {
    (id: Id) => id in s.jobs && s.jobs[id].status in statuses && s.jobs[id].origin.chat == chat
  }

  lemma {:induction false} CountPrefix(s: Store, statuses: set<Status>, chat: int, n: nat)
    requires ValidStore(s) && n <= |s.order|
    ensures Count(Filter(Values(s)[..n], InStatuses(statuses)), InChat(chat))
         == Count(s.order[..n], Occupies(s, statuses, chat))
  {
    if n > 0 {
      CountPrefix(s, statuses, chat, n - 1);
      OrderListsKeys(s);
      var job := Values(s)[n - 1];
      assert Values(s)[..n] == Values(s)[..n - 1] + [job];
      assert s.order[..n] == s.order[..n - 1] + [s.order[n - 1]];
      FilterAppend(Values(s)[..n - 1], job, InStatuses(statuses));
      if job.status in statuses {
        CountAppend(Filter(Values(s)[..n - 1], InStatuses(statuses)), job, InChat(chat));
      }
      CountAppend(s.order[..n - 1], s.order[n - 1], Occupies(s, statuses, chat));
    }
  }

  lemma OccupiesIsOccupying(s: Store, statuses: set<Status>, chat: int)
    requires ValidStore(s)
    ensures Where(s.order, Occupies(s, statuses, chat)) == Occupying(s, statuses, chat)
  {
    OrderListsKeys(s);
    forall id
      ensures id in Where(s.order, Occupies(s, statuses, chat)) <==> id in Occupying(s, statuses, chat)
    {
    }
  }

  /** Counting a chat's jobs in the listing counts the chat's jobs in the store. */
  lemma ListingCounts(s: Store, statuses: set<Status>, chat: int)
    requires ValidStore(s)
    ensures Count(Listed(s, statuses), InChat(chat)) == |Occupying(s, statuses, chat)|
  {
    OrderListsKeys(s);
    CountPrefix(s, statuses, chat, |s.order|);
    assert Values(s)[..|s.order|] == Values(s);
    assert s.order[..|s.order|] == s.order;
    CountIsCardinality(s.order, Occupies(s, statuses, chat));
    OccupiesIsOccupying(s, statuses, chat);
  }

  /* ---- the service object ---- */

  class InMemoryAgentEventStream {
    var events: seq<Event>

    constructor ()
      ensures events == []
    {
      events := [];
    }

    method Append(event: Event)
      modifies this
      ensures events == old(events) + [event]
    {
      events := events + [event];
    }

    /** The scan keeps the job's events, all of them, in the order they were emitted. */
    method EventsFor(id: Id) returns (r: seq<Event>)
      ensures r == Filter(events, OfJob(id))
      ensures forall e :: e in r <==> e in events && e.jobId == id
    {
      r := [];
      for i := 0 to |events|
        invariant r == Filter(events[..i], OfJob(id))
      {
        assert events[..i + 1][..i] == events[..i];
        if events[i].jobId == id {
          r := r + [events[i]];
        }
      }
      assert events[..|events|] == events;
      FilterIn(events, OfJob(id));
    }
  }

  class AgentRuntime {
    const store: InMemoryAgentJobStore
    const events: InMemoryAgentEventStream
    const cfg: Config
    var workers: set<string>
    var background: map<Id, nat>

    ghost predicate Valid()
      reads this, store, events
    {
      store.Valid()
    }

    ghost function View(): Core
      reads this, store, events
    {
      Core(store.View(), events.events, workers, background)
    }

    constructor (cfg: Config, workers: set<string>)
      ensures Valid() && fresh(store) && fresh(events)
      ensures this.cfg == cfg && View() == Core(EMPTY_STORE, [], workers, map[])
    {
      this.cfg := cfg;
      this.workers := workers;
      background := map[];
      store := new InMemoryAgentJobStore();
      events := new InMemoryAgentEventStream();
    }

    method RegisterWorker(name: string)
      requires Valid()
      modifies this
      ensures Valid() && View() == old(View()).(workers := old(workers) + {name})
    {
      workers := workers + {name};
    }

    method CommitJob(job: Job, kind: EventKind, message: string)
      requires Valid()
      modifies store, events
      ensures Valid() && View() == Commit(old(View()), job, kind, message)
    {
      store.Save(job);
      events.Append(Event(job.id, kind, message));
    }

    method CountInChat(statuses: set<Status>, chat: int) returns (n: nat)
      requires Valid()
      ensures n == |Occupying(store.View(), statuses, chat)|
    {
      var listed := store.ListByStatus(statuses);
      n := 0;
      var i := 0;
      while i < |listed|
        invariant 0 <= i <= |listed|
        invariant n == Count(listed[..i], InChat(chat))
      {
        CountAppend(listed[..i], listed[i], InChat(chat));
        assert listed[..i + 1] == listed[..i] + [listed[i]];
        if listed[i].origin.chat == chat {
          n := n + 1;
        }
        i := i + 1;
      }
      assert listed[..i] == listed;
      ListingCounts(store.View(), statuses, chat);
    }

    method EnforceChatLimits(job: Job) returns (r: Option<string>)
      requires Valid()
      ensures r == LimitReached(cfg, store.View(), job)
    {
      var active := CountInChat(ACTIVE_STATUSES, job.origin.chat);
      var queued := CountInChat(QUEUE_STATUSES, job.origin.chat);
      if job.status in ACTIVE_STATUSES && active >= cfg.maxActive {
        return Some("active job limit exceeded for chat");
      }
      if job.status in QUEUE_STATUSES && queued >= cfg.maxQueued {
        return Some("queued job limit exceeded for chat");
      }
      return None;
    }

    method CreateJob(id: Id, origin: Origin, status: Status, preflight: Option<string>, now: Time)
      returns (r: CreateOutcome)
      requires Valid()
      modifies store, events
      ensures Valid() && (View(), r) == CreateSpec(cfg, old(View()), NewJob(id, origin, status, now), preflight)
      ensures r.Existing? ==> r.job.id in old(View()).store.jobs && old(View()).store.jobs[r.job.id] == r.job
      ensures r.Created? ==> r.job.id == id && r.job.origin == origin && r.job.id in View().store.jobs
                             && View().store.jobs[r.job.id] == r.job
    {
      CreateAnswers(cfg, View(), NewJob(id, origin, status, now), preflight);
      var existing := store.FindByFingerprint(origin.fingerprint);
      if existing.Some? && !Terminal(existing.value.status) {
        return Existing(existing.value);
      }
      if preflight.Some? {
        return Refused(preflight.value);
      }
      var job := NewJob(id, origin, status, now);
      var limit := EnforceChatLimits(job);
      if limit.Some? {
        return Refused(limit.value);
      }
      CommitJob(job, CREATED, "Created job");
      return Created(job);
    }

    method Enqueue(id: Id, now: Time) returns (r: Option<Job>)
      requires Valid()
      modifies store
      ensures Valid() && View() == EnqueueSpec(old(View()), id, now)
      ensures r == if id in View().store.jobs then Some(View().store.jobs[id]) else None
    {
      r := store.Get(id);
      if r.Some? {
        r := Some(WithStatus(r.value, Queued, now));
        store.Save(r.value);
      }
    }

    method Complete(id: Id, capsule: Capsule, now: Time) returns (r: Option<Job>)
      requires Valid()
      modifies store
      ensures Valid() && View() == CompleteSpec(old(View()), id, capsule, now)
      ensures r == if id in View().store.jobs then Some(View().store.jobs[id]) else None
    {
      r := store.Get(id);
      if r.Some? {
        r := Some(WithStatus(r.value, Done, now, "", Some(capsule)));
        store.Save(r.value);
      }
    }

    method Fail(id: Id, reason: string, now: Time) returns (r: Option<Job>)
      requires Valid()
      modifies store
      ensures Valid() && View() == FailSpec(old(View()), id, reason, now)
      ensures r == if id in View().store.jobs then Some(View().store.jobs[id]) else None
    {
      r := store.Get(id);
      if r.Some? {
        r := Some(WithStatus(r.value, Failed, now, reason));
        store.Save(r.value);
      }
    }

    method AttachFollowup(id: Id, text: string)
      requires Valid()
      modifies store, events
      ensures Valid() && View() == AttachFollowupSpec(old(View()), id, text)
    {
      var job := store.Get(id);
      if job.None? || Terminal(job.value.status) {
        return;
      }
      CommitJob(job.value.(followups := job.value.followups + [text]), FOLLOWUP_ATTACHED,
                if |text| <= 200 then text else text[..200]);
    }

    method AttachArtifact(id: Id, artifact: string)
      requires Valid()
      modifies store, events
      ensures Valid() && View() == AttachArtifactSpec(old(View()), id, artifact)
    {
      var job := store.Get(id);
      if job.None? || Terminal(job.value.status) {
        return;
      }
      CommitJob(job.value.(artifacts := job.value.artifacts + [artifact]), ARTIFACT_ATTACHED, artifact);
    }

    /** start, up to the await of the worker. */
    method Start(id: Id, now: Time) returns (r: StartOutcome)
      requires Valid()
      modifies store, events
      ensures Valid() && (View(), r) == StartSpec(old(View()), id, now)
    {
      var job := store.Get(id);
      if job.None? {
        return NoSuchJob;
      }
      if Terminal(job.value.status) {
        return NotStarted(job.value);
      }
      var running := WithStatus(job.value, Running, now);
      CommitJob(running, STARTED, "Agent job started");
      r := if running.origin.worker in workers then Launched(running) else WorkerUnknown(running);
    }

    method StartBackground(id: Id, task: nat, live: set<nat>, now: Time) returns (r: StartOutcome)
      requires Valid()
      modifies this, store, events
      ensures Valid() && (View(), r) == StartBackgroundSpec(old(View()), id, task, live, now)
    {
      var job := store.Get(id);
      if id in background && background[id] in live {
        return if job.Some? then NotStarted(job.value) else NoSuchJob;
      }
      if job.None? {
        return NoSuchJob;
      }
      if Terminal(job.value.status) {
        return NotStarted(job.value);
      }
      var running := WithStatus(job.value, Running, now);
      CommitJob(running, STARTED, "Agent job started");
      background := background[id := task];
      r := Launched(running);
    }

    /** _run_worker, resumed when the worker's await ends. */
    method AfterWorker(running: Job, o: Outcome, now: Time) returns (r: Finish)
      requires Valid() && running.id in View().store.jobs
      modifies store, events
      ensures Valid() && (View(), r) == AfterWorkerSpec(old(View()), running, o, now)
    {
      match o {
        case TaskCanceled =>
          var current := store.Get(running.id);
          if Terminal(current.value.status) {
            return Ended(current.value);
          }
          var canceled := WithStatus(current.value, Canceled, now, "background task canceled");
          CommitJob(canceled, CANCELED, canceled.error);
          r := Ended(canceled);
        case TimedOut(reason) =>
          var failed := WithStatus(running, Failed, now, reason, Some(TimeoutCapsule(reason)));
          CommitJob(failed, FAILED, reason);
          r := Ended(failed);
        case Raised(message, partial) =>
          var current := store.Get(running.id);
          if Terminal(current.value.status) {
            return Ended(current.value);
          }
          var failed := WithStatus(current.value, Failed, now, message, partial);
          CommitJob(failed, FAILED, message);
          r := Ended(failed);
        case Returned(capsule) =>
          var current := store.Get(running.id);
          if Terminal(current.value.status) {
            return Ended(current.value);
          }
          var completed := WithStatus(running, Done, now, "", Some(capsule));
          CommitJob(completed, COMPLETED, capsule.summary);
          r := Finished(completed);
      }
    }

    method AfterStaging(id: Id, count: Option<int>)
      requires Valid()
      modifies events
      ensures Valid() && View() == AfterStagingSpec(old(View()), id, count)
    {
      if count.None? {
        events.Append(Event(id, PROGRESS, "Memory staging failed"));
      } else if count.value > 0 {
        events.Append(Event(id, MEMORY_STAGED, "Memory candidates staged"));
      }
    }

    method AfterRecording(id: Id, count: Option<int>)
      requires Valid()
      modifies events
      ensures Valid() && View() == AfterRecordingSpec(old(View()), id, count)
    {
      if count.None? {
        events.Append(Event(id, PROGRESS, "Budget usage recording failed"));
      } else if count.value > 0 {
        events.Append(Event(id, PROGRESS, "Budget usage recorded"));
      }
    }

    /** cancel, up to the await of worker.cancel when there is one. */
    method CancelBegin(id: Id, reason: string, now: Time) returns (r: CancelOutcome)
      requires Valid()
      modifies store, events
      ensures Valid() && (View(), r) == CancelBeginSpec(old(View()), id, reason, now)
    {
      var job := store.Get(id);
      if job.None? {
        return NothingToCancel;
      }
      if job.value.origin.worker in workers && job.value.status.Running? {
        return AwaitingWorker(job.value);
      }
      var canceled := CancelEnd(job.value, reason, now);
      r := CanceledNow(canceled);
    }

    /** cancel, resumed with the record it read before awaiting the worker. */
    method CancelEnd(job: Job, reason: string, now: Time) returns (canceled: Job)
      requires Valid()
      modifies store, events
      ensures Valid() && (View(), canceled) == CancelEndSpec(old(View()), job, reason, now)
    {
      canceled := WithStatus(job, Canceled, now, if reason != "" then reason else "canceled");
      CommitJob(canceled, CANCELED, canceled.error);
    }

    method RecoverRunningJobs(reason: string, now: Time)
      requires Valid()
      modifies store, events
      ensures Valid() && View() == RecoverSpec(old(View()), reason, now)
    {
      var jobs := store.ListByStatus(ACTIVE_STATUSES);
      var i := 0;
      while i < |jobs|
        invariant 0 <= i <= |jobs|
        invariant Valid() && View() == RecoverAll(old(View()), jobs[..i], reason, now)
      {
        assert jobs[..i + 1][..i] == jobs[..i];
        CommitJob(WithStatus(jobs[i], NeedsReview, now, reason), RECOVERED, reason);
        i := i + 1;
      }
      assert jobs[..i] == jobs;
    }
  }
}
