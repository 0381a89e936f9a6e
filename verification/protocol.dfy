/** Every interleaving of the runtime's operations.

    `Sys` is the runtime together with the coroutines that are suspended. An `Op` lets one
    of them run to its next suspension point, or starts a new call; a run of the system is
    any sequence of operations. An operation whose call or job does not exist changes
    nothing. The outcome of a worker, sink or recorder is arbitrary. The process may die at a
    suspension point, or inside an operation between a save and the event that follows it. */
module Protocol {
  import opened Common
  import opened Jobs
  import opened JobStore
  import opened Runtime

  datatype Phase =
    | Scheduled                       // background task created, not yet entered
    | Working                         // awaiting the worker
    | Staging(completed: Job)         // awaiting the memory sink
    | Recording(completed: Job)       // awaiting the usage recorder

  /** `running` is the record the coroutine holds in its locals. */
  datatype Run = Run(running: Job, phase: Phase)

  datatype Canceling = Canceling(job: Job, reason: string)

  /** `callbacks` are the done-callbacks of background tasks; `born`, `staged` and `recorded`
      are history: the status each job was created with, and the jobs handed to the memory
      sink and to the usage recorder, in order. */
  datatype Sys = Sys(
    core: Core, runs: map<nat, Run>, nextRun: nat, cancels: map<nat, Canceling>, nextCancel: nat,
    callbacks: map<nat, Id>, born: map<Id, Status>, staged: seq<Id>, recorded: seq<Id>)

  const INIT := Sys(Core(EMPTY_STORE, [], {}, map[]), map[], 0, map[], 0, map[], map[], [], [])

  /** Calls that run to their end in one stretch. */
  datatype DirectOp =
    | Register(worker: string)
    | Enqueue(id: Id, now: Time)
    | Progress(id: Id, text: string)
    | AttachFollowup(id: Id, text: string)
    | AttachArtifact(id: Id, text: string)
    | Complete(id: Id, capsule: Capsule, now: Time)
    | Fail(id: Id, text: string, now: Time)
    | Recover(text: string, now: Time)

  /** Resumptions of one run of a worker. */
  datatype RunOp =
    | TaskBegins                      // a scheduled task looks its worker up
    | Dropped                         // canceled before its first step, or while staging or recording
    | TaskCallback                    // the done-callback of a finished background task
    | WorkerEnds(outcome: Outcome, now: Time)
    | StagingEnds(count: Option<int>)
    | RecordingEnds(count: Option<int>)

  datatype Op =
    | Direct(call: DirectOp)
    | Create(newId: Id, origin: Origin, status: Status, preflight: Option<string>, at: Time)
    | Start(job: Id, at: Time)
    | StartBackground(job: Id, at: Time)
    | OfRun(run: nat, resume: RunOp)
    | Cancel(target: Id, reason: string, at: Time)
    | CancelResumes(pending: nat, at: Time)
    | CancelDropped(pending: nat)     // worker.cancel raised
    | Restart                         // the process dies; store and log are durable
    | Torn(cut: Op)                   // it dies inside this operation, after its save and before its event
    | RecoveryTorn(text: string, at: Time, saves: nat, announced: bool)  // or inside a recovery

  /** A snapshot some coroutine holds: its job is still stored, with the same origin. */
  ghost predicate Held(store: Store, job: Job) {
    job.id in store.jobs && store.jobs[job.id].origin == job.origin
  }

  ghost predicate RunsHeld(store: Store, runs: map<nat, Run>, next: nat) {
    forall r :: r in runs ==> r < next && RunHeld(store, runs[r])
  }

  ghost predicate RunHeld(store: Store, run: Run) {
    && Held(store, run.running)
    && (run.phase.Staging? || run.phase.Recording? ==> run.phase.completed.id == run.running.id)
  }

  ghost predicate CancelsHeld(store: Store, cancels: map<nat, Canceling>) {
    forall k :: k in cancels ==> Held(store, cancels[k].job)
  }

  ghost predicate Wf(s: Sys) {
    && ValidStore(s.core.store)
    && RunsHeld(s.core.store, s.runs, s.nextRun)
    && CancelsHeld(s.core.store, s.cancels)
    && s.born.Keys == s.core.store.jobs.Keys
  }

  function Forget<V>(m: map<nat, V>, k: nat): map<nat, V> { m - {k} }

  function DirectSpec(c: Core, op: DirectOp): Core
    requires ValidStore(c.store)
  {
    match op
    case Register(worker) => c.(workers := c.workers + {worker})
    case Enqueue(id, now) => EnqueueSpec(c, id, now)
    case Progress(id, text) => Emit(c, id, PROGRESS, text)
    case AttachFollowup(id, text) => AttachFollowupSpec(c, id, text)
    case AttachArtifact(id, text) => AttachArtifactSpec(c, id, text)
    case Complete(id, capsule, now) => CompleteSpec(c, id, capsule, now)
    case Fail(id, text, now) => FailSpec(c, id, text, now)
    case Recover(text, now) => RecoverSpec(c, text, now)
  }

  /** Enter usage recording, or end the run when there is no recorder. */
  function EnterRecording(cfg: Config, s: Sys, run: nat, running: Job, completed: Job): Sys {
    if cfg.budgetRecorder
    then s.(runs := s.runs[run := Run(running, Recording(completed))], recorded := s.recorded + [completed.id])
    else s.(runs := Forget(s.runs, run))
  }

  function EnterStaging(cfg: Config, s: Sys, run: nat, running: Job, completed: Job): Sys {
    if cfg.memorySink && completed.result.Some? && completed.result.value.memoryCandidates != []
    then s.(runs := s.runs[run := Run(running, Staging(completed))], staged := s.staged + [completed.id])
    else EnterRecording(cfg, s, run, running, completed)
  }

  function WorkerEndsSpec(cfg: Config, s: Sys, run: nat, running: Job, o: Outcome, now: Time): Sys
    requires running.id in s.core.store.jobs
  {
    var (c, f) := AfterWorkerSpec(s.core, running, o, now);
    if f.Finished? then EnterStaging(cfg, s.(core := c), run, running, f.completed)
    else s.(core := c, runs := Forget(s.runs, run))
  }

  function StagingEndsSpec(cfg: Config, s: Sys, run: nat, running: Job, completed: Job, count: Option<int>): Sys {
    EnterRecording(cfg, s.(core := AfterStagingSpec(s.core, completed.id, count)), run, running, completed)
  }

  function CallbackSpec(s: Sys, run: nat): Sys {
    if run !in s.callbacks || run in s.runs then s
    else s.(core := s.core.(background := s.core.background - {s.callbacks[run]}),
            callbacks := Forget(s.callbacks, run))
  }

  function TaskBeginsSpec(s: Sys, r: nat, running: Job): Sys {
    if running.origin.worker in s.core.workers then s.(runs := s.runs[r := Run(running, Working)])
    else s.(runs := Forget(s.runs, r))
  }

  function RecordingEndsSpec(s: Sys, r: nat, completed: Job, count: Option<int>): Sys {
    s.(core := AfterRecordingSpec(s.core, completed.id, count), runs := Forget(s.runs, r))
  }

  function RunSpec(cfg: Config, s: Sys, r: nat, op: RunOp): Sys
    requires Wf(s)
  {
    if op.TaskCallback? then CallbackSpec(s, r)
    else if r !in s.runs then s
    else
      var run := s.runs[r];
      match run.phase
      case Scheduled =>
        if op.TaskBegins? then TaskBeginsSpec(s, r, run.running)
        else if op.Dropped? then s.(runs := Forget(s.runs, r))
        else s
      case Working =>
        if op.WorkerEnds? then WorkerEndsSpec(cfg, s, r, run.running, op.outcome, op.now) else s
      case Staging(completed) =>
        if op.StagingEnds? then StagingEndsSpec(cfg, s, r, run.running, completed, op.count)
        else if op.Dropped? then s.(runs := Forget(s.runs, r))
        else s
      case Recording(completed) =>
        if op.RecordingEnds? then RecordingEndsSpec(s, r, completed, op.count)
        else if op.Dropped? then s.(runs := Forget(s.runs, r))
        else s
  }

  function CreateCallSpec(cfg: Config, s: Sys, job: Job, preflight: Option<string>): Sys
    requires Wf(s)
  {
    if job.id in s.core.store.jobs then s  // uuid4 ids are fresh
    else
      var (c, o) := CreateSpec(cfg, s.core, job, preflight);
      if o.Created? then s.(core := c, born := s.born[job.id := job.status]) else s
  }

  function StartCallSpec(s: Sys, id: Id, now: Time): Sys {
    var (c, o) := StartSpec(s.core, id, now);
    if o.Launched? then s.(core := c, runs := s.runs[s.nextRun := Run(o.running, Working)], nextRun := s.nextRun + 1)
    else s.(core := c)
  }

  function StartBackgroundCallSpec(s: Sys, id: Id, now: Time): Sys {
    var (c, o) := StartBackgroundSpec(s.core, id, s.nextRun, s.runs.Keys, now);
    if o.Launched?
    then s.(core := c, runs := s.runs[s.nextRun := Run(o.running, Scheduled)], nextRun := s.nextRun + 1,
            callbacks := s.callbacks[s.nextRun := id])
    else s.(core := c)
  }

  function CancelCallSpec(s: Sys, id: Id, reason: string, now: Time): Sys {
    var (c, o) := CancelBeginSpec(s.core, id, reason, now);
    if o.AwaitingWorker?
    then s.(core := c, cancels := s.cancels[s.nextCancel := Canceling(o.job, reason)], nextCancel := s.nextCancel + 1)
    else s.(core := c)
  }

  function CancelResumesSpec(s: Sys, k: nat, now: Time): Sys {
    if k !in s.cancels then s
    else s.(core := CancelEndSpec(s.core, s.cancels[k].job, s.cancels[k].reason, now).0,
            cancels := Forget(s.cancels, k))
  }

  /** A new process: only store and log survive, and its workers are yet to be registered. */
  function Reborn(s: Sys): Sys {
    s.(core := s.core.(workers := {}, background := map[]), runs := map[], cancels := map[], callbacks := map[])
  }

  /** An operation that is not cut short. */
  function ApplyCall(cfg: Config, s: Sys, op: Op): Sys
    requires Wf(s)
  {
    match op
    case Direct(call) => s.(core := DirectSpec(s.core, call))
    case Create(id, origin, status, preflight, now) =>
      CreateCallSpec(cfg, s, NewJob(id, origin, status, now), preflight)
    case Start(id, now) => StartCallSpec(s, id, now)
    case StartBackground(id, now) => StartBackgroundCallSpec(s, id, now)
    case OfRun(r, resume) => RunSpec(cfg, s, r, resume)
    case Cancel(id, reason, now) => CancelCallSpec(s, id, reason, now)
    case CancelResumes(k, now) => CancelResumesSpec(s, k, now)
    case CancelDropped(k) => s.(cancels := Forget(s.cancels, k))
    case Restart => Reborn(s)
    case Torn(_) => s
    case RecoveryTorn(_, _, _, _) => s
  }

  predicate IsRecovery(op: Op) { op.Direct? && op.call.Recover? }

  /** Death after the save of an operation and before its event. Every operation but a
      recovery saves at most one record, before it emits anything. */
  function TornSpec(cfg: Config, s: Sys, op: Op): Sys
    requires Wf(s)
  {
    if IsRecovery(op) then Reborn(s)
    else
      var s' := ApplyCall(cfg, s, op);
      Reborn(s.(core := s.core.(store := s'.core.store), born := s'.born))
  }

  /** The core after the first `saves + 1` saves of a recovery, the last of them announced or
      not; unchanged when it has fewer. */
  function TornRecovery(c: Core, text: string, now: Time, saves: nat, announced: bool): Core
    requires ValidStore(c.store)
  {
    var jobs := Listed(c.store, ACTIVE_STATUSES);
    if saves >= |jobs| then c
    else
      var saved := RecoverAll(c, jobs[..saves + 1], text, now);
      if announced then saved else saved.(log := RecoverAll(c, jobs[..saves], text, now).log)
  }

  function Apply(cfg: Config, s: Sys, op: Op): Sys
    requires Wf(s)
  {
    match op
    case Torn(cut) => TornSpec(cfg, s, cut)
    case RecoveryTorn(text, now, saves, announced) =>
      Reborn(s.(core := TornRecovery(s.core, text, now, saves, announced)))
    case _ => ApplyCall(cfg, s, op)
  }

  /** What an operation is entitled to: bring one job into QUEUED from any status, move one
      unfinished job to RUNNING, or add one job; every other change ends a job. */
  datatype Right = None_ | MayEnqueue(id: Id) | MayStart(id: Id) | MayCreate(job: Job)

  function RightOf(op: Op): Right { RightOfCall(if op.Torn? then op.cut else op) }

  function RightOfCall(op: Op): Right {
    match op
    case Direct(Enqueue(id, _)) => MayEnqueue(id)
    case Start(id, _) => MayStart(id)
    case StartBackground(id, _) => MayStart(id)
    case Create(id, origin, status, None, now) => MayCreate(NewJob(id, origin, status, now))
    case _ => None_
  }

  /** An existing job keeps its origin, and its status moves only as the right allows; it
      leaves the terminal statuses exactly when it is enqueued there. */
  ghost predicate JobStep(right: Right, a: Job, b: Job) {
    && b.origin == a.origin
    && (Consistent(a) ==> Consistent(b))
    && (b.status == a.status || Terminal(b.status)
        || (right == MayEnqueue(a.id) && b.status.Queued?)
        || (right == MayStart(a.id) && b.status.Running?))
    && (Terminal(a.status) ==> (Terminal(b.status) <==> right != MayEnqueue(a.id)))
  }

  /** Only create_job adds a job: with an unclaimed fingerprint, within its chat's limits. */
  ghost predicate NewJobStep(cfg: Config, right: Right, before: Store, job: Job) {
    && right == MayCreate(job)
    && LimitReached(cfg, before, job).None?
    && (forall other :: Matches(before, job.origin.fingerprint, other) ==> Terminal(before.jobs[other].status))
  }

  ghost predicate StoreStep(cfg: Config, right: Right, a: Store, b: Store) {
    && ValidStore(b)
    && a.jobs.Keys <= b.jobs.Keys
    && (forall id :: id in a.jobs ==> JobStep(right, a.jobs[id], b.jobs[id]))
    && (forall id :: id in b.jobs && id !in a.jobs ==> NewJobStep(cfg, right, a, b.jobs[id]))
  }

  lemma SameStore(cfg: Config, right: Right, a: Store)
    requires ValidStore(a) && (right.MayEnqueue? ==> right.id !in a.jobs)
    ensures StoreStep(cfg, right, a, a)
  {
  }

  lemma PutStep(cfg: Config, right: Right, a: Store, job: Job)
    requires ValidStore(a) && job.id in a.jobs && JobStep(right, a.jobs[job.id], job)
    requires right.MayEnqueue? ==> right.id == job.id
    ensures StoreStep(cfg, right, a, Put(a, job))
  {
    PutValid(a, job);
  }

  lemma AddStep(cfg: Config, a: Store, job: Job)
    requires ValidStore(a) && job.id !in a.jobs && NewJobStep(cfg, MayCreate(job), a, job)
    ensures StoreStep(cfg, MayCreate(job), a, Put(a, job))
  {
    PutValid(a, job);
  }

  lemma CreateStep(cfg: Config, c: Core, job: Job, preflight: Option<string>)
    requires ValidStore(c.store) && job.id !in c.store.jobs
    ensures var (c', o) := CreateSpec(cfg, c, job, preflight);
            && StoreStep(cfg, if preflight.None? then MayCreate(job) else None_, c.store, c'.store)
            && (if o.Created? then c'.store == Put(c.store, job) else c' == c)
  {
    var c' := CreateSpec(cfg, c, job, preflight).0;
    if c'.store == c.store {
      SameStore(cfg, if preflight.None? then MayCreate(job) else None_, c.store);
    } else {
      FindPrefersUnfinished(c.store, job.origin.fingerprint);
      AddStep(cfg, c.store, job);
    }
  }

  lemma StartStep(cfg: Config, c: Core, id: Id, now: Time)
    requires ValidStore(c.store)
    ensures var (c', o) := StartSpec(c, id, now);
            && StoreStep(cfg, MayStart(id), c.store, c'.store) && c'.store.jobs.Keys == c.store.jobs.Keys
            && (o.Launched? ==> o.running.id in c.store.jobs && o.running.origin == c.store.jobs[o.running.id].origin)
  {
    if id in c.store.jobs && !Terminal(c.store.jobs[id].status) {
      PutStep(cfg, MayStart(id), c.store, WithStatus(c.store.jobs[id], Running, now));
    } else {
      SameStore(cfg, MayStart(id), c.store);
    }
  }

  lemma StartBackgroundStep(cfg: Config, c: Core, id: Id, task: nat, live: set<nat>, now: Time)
    requires ValidStore(c.store)
    ensures var (c', o) := StartBackgroundSpec(c, id, task, live, now);
            && StoreStep(cfg, MayStart(id), c.store, c'.store) && c'.store.jobs.Keys == c.store.jobs.Keys
            && (o.Launched? ==> o.running.id in c.store.jobs && o.running.origin == c.store.jobs[o.running.id].origin)
  {
    if id in c.store.jobs && !Terminal(c.store.jobs[id].status) {
      PutStep(cfg, MayStart(id), c.store, WithStatus(c.store.jobs[id], Running, now));
    }
    SameStore(cfg, MayStart(id), c.store);
  }

  lemma AfterWorkerStep(cfg: Config, c: Core, running: Job, o: Outcome, now: Time)
    requires ValidStore(c.store) && running.id in c.store.jobs && running.origin == c.store.jobs[running.id].origin
    ensures var (c', f) := AfterWorkerSpec(c, running, o, now);
            && StoreStep(cfg, None_, c.store, c'.store)
            && (f.Finished? ==> f.completed.id == running.id)
  {
    var current := c.store.jobs[running.id];
    if Terminal(current.status) && !o.TimedOut? {
      SameStore(cfg, None_, c.store);
    } else {
      match o
      case TaskCanceled => PutStep(cfg, None_, c.store, WithStatus(current, Canceled, now, "background task canceled"));
      case TimedOut(reason) =>
        PutStep(cfg, None_, c.store, WithStatus(running, Failed, now, reason, Some(TimeoutCapsule(reason))));
      case Raised(message, partial) => PutStep(cfg, None_, c.store, WithStatus(current, Failed, now, message, partial));
      case Returned(capsule) => PutStep(cfg, None_, c.store, WithStatus(running, Done, now, "", Some(capsule)));
    }
  }

  lemma CancelEndStep(cfg: Config, c: Core, job: Job, reason: string, now: Time)
    requires ValidStore(c.store) && job.id in c.store.jobs && job.origin == c.store.jobs[job.id].origin
    ensures StoreStep(cfg, None_, c.store, CancelEndSpec(c, job, reason, now).0.store)
  {
    PutStep(cfg, None_, c.store, CancelEndSpec(c, job, reason, now).1);
  }

  lemma CancelBeginStep(cfg: Config, c: Core, id: Id, reason: string, now: Time)
    requires ValidStore(c.store)
    ensures var (c', o) := CancelBeginSpec(c, id, reason, now);
            && StoreStep(cfg, None_, c.store, c'.store)
            && (o.AwaitingWorker? ==> o.job.id in c.store.jobs && o.job.origin == c.store.jobs[o.job.id].origin)
  {
    SameStore(cfg, None_, c.store);
    if id in c.store.jobs {
      CancelEndStep(cfg, c, c.store.jobs[id], reason, now);
    }
  }

  lemma RecoverStep(cfg: Config, c: Core, reason: string, now: Time)
    requires ValidStore(c.store)
    ensures StoreStep(cfg, None_, c.store, RecoverSpec(c, reason, now).store)
  {
    RecoverEffect(c, reason, now);
  }

  lemma EnqueueStep(cfg: Config, c: Core, id: Id, now: Time)
    requires ValidStore(c.store)
    ensures StoreStep(cfg, MayEnqueue(id), c.store, EnqueueSpec(c, id, now).store)
  {
    if id in c.store.jobs {
      PutStep(cfg, MayEnqueue(id), c.store, WithStatus(c.store.jobs[id], Queued, now));
    } else {
      SameStore(cfg, MayEnqueue(id), c.store);
    }
  }

  /** Saving over an existing record, as complete, fail and the attachments do. */
  lemma SavedStep(cfg: Config, a: Store, id: Id, b: Store)
    requires ValidStore(a)
    requires b == a || (id in a.jobs && b.jobs.Keys == a.jobs.Keys && b == Put(a, b.jobs[id])
                        && b.jobs[id].id == id && JobStep(None_, a.jobs[id], b.jobs[id]))
    ensures StoreStep(cfg, None_, a, b)
  {
    if b == a {
      SameStore(cfg, None_, a);
    } else {
      PutStep(cfg, None_, a, b.jobs[id]);
    }
  }

  lemma DirectStep(cfg: Config, c: Core, op: DirectOp)
    requires ValidStore(c.store)
    ensures StoreStep(cfg, RightOf(Direct(op)), c.store, DirectSpec(c, op).store)
  {
    var b := DirectSpec(c, op).store;
    match op
    case Register(_) => SameStore(cfg, None_, c.store);
    case Progress(_, _) => SameStore(cfg, None_, c.store);
    case Enqueue(id, now) => EnqueueStep(cfg, c, id, now);
    case AttachFollowup(id, text) => SavedStep(cfg, c.store, id, b);
    case AttachArtifact(id, text) => SavedStep(cfg, c.store, id, b);
    case Complete(id, capsule, now) => SavedStep(cfg, c.store, id, b);
    case Fail(id, text, now) => SavedStep(cfg, c.store, id, b);
    case Recover(text, now) => RecoverStep(cfg, c, text, now);
  }

  /** What resuming run `r` leaves alone. */
  ghost predicate Resumed(s: Sys, s': Sys, r: nat) {
    && s'.nextRun == s.nextRun && s'.cancels == s.cancels && s'.born == s.born
    && s'.core.store.jobs.Keys == s.core.store.jobs.Keys
    && (forall k :: k in s'.runs && k != r ==> k in s.runs && s'.runs[k] == s.runs[k])
    && (r in s'.runs ==> r in s.runs && RunHeld(s'.core.store, s'.runs[r]))
  }

  lemma EnterKeeps(cfg: Config, s: Sys, r: nat, running: Job, completed: Job)
    requires r in s.runs && Held(s.core.store, running) && completed.id == running.id
    ensures EnterRecording(cfg, s, r, running, completed).core == s.core
    ensures EnterStaging(cfg, s, r, running, completed).core == s.core
    ensures Resumed(s, EnterRecording(cfg, s, r, running, completed), r)
    ensures Resumed(s, EnterStaging(cfg, s, r, running, completed), r)
  {
  }

  lemma SameKeys(cfg: Config, right: Right, a: Store, b: Store)
    requires StoreStep(cfg, right, a, b) && !right.MayCreate?
    ensures b.jobs.Keys == a.jobs.Keys
  {
    forall id | id in b.jobs
      ensures id in a.jobs
    {
      assert id !in a.jobs ==> NewJobStep(cfg, right, a, b.jobs[id]);
    }
  }

  /** Records saved before a run is resumed do not matter to what the resumption leaves alone. */
  lemma ResumedAfterSave(s: Sys, c: Core, s': Sys, r: nat)
    requires c.store.jobs.Keys == s.core.store.jobs.Keys && Resumed(s.(core := c), s', r)
    ensures Resumed(s, s', r)
  {
  }

  lemma WorkerEndsStep(cfg: Config, s: Sys, r: nat, running: Job, o: Outcome, now: Time)
    requires Wf(s) && r in s.runs && Held(s.core.store, running)
    ensures var s' := WorkerEndsSpec(cfg, s, r, running, o, now);
            StoreStep(cfg, None_, s.core.store, s'.core.store) && Resumed(s, s', r)
  {
    AfterWorkerStep(cfg, s.core, running, o, now);
    var (c, f) := AfterWorkerSpec(s.core, running, o, now);
    SameKeys(cfg, None_, s.core.store, c.store);
    if f.Finished? {
      EnterKeeps(cfg, s.(core := c), r, running, f.completed);
    } else {
      RunEnds(s.(core := c), r);
    }
    ResumedAfterSave(s, c, WorkerEndsSpec(cfg, s, r, running, o, now), r);
  }

  lemma StagingEndsStep(cfg: Config, s: Sys, r: nat, completed: Job, count: Option<int>)
    requires Wf(s) && r in s.runs && s.runs[r].phase == Staging(completed)
    ensures var s' := StagingEndsSpec(cfg, s, r, s.runs[r].running, completed, count);
            s'.core.store == s.core.store && Resumed(s, s', r)
  {
    EnterKeeps(cfg, s.(core := AfterStagingSpec(s.core, completed.id, count)), r, s.runs[r].running, completed);
  }

  lemma RunEnds(s: Sys, r: nat)
    ensures Resumed(s, s.(runs := Forget(s.runs, r)), r)
  {
  }

  lemma QuietResume(cfg: Config, s: Sys, r: nat, op: RunOp)
    requires Wf(s) && !op.WorkerEnds? && !op.StagingEnds?
    ensures RunSpec(cfg, s, r, op).core.store == s.core.store
    ensures Resumed(s, RunSpec(cfg, s, r, op), r)
  {
    if op.TaskCallback? || r !in s.runs {
    } else if op.TaskBegins? {
      BeginResumes(cfg, s, r);
    } else {
      RunEnds(s, r);
      EndsOrStays(cfg, s, r, op);
    }
  }

  lemma BeginResumes(cfg: Config, s: Sys, r: nat)
    requires Wf(s) && r in s.runs
    ensures var s' := RunSpec(cfg, s, r, TaskBegins); s'.core.store == s.core.store && Resumed(s, s', r)
  {
    RunEnds(s, r);
    if !s.runs[r].phase.Scheduled? {
      assert RunSpec(cfg, s, r, TaskBegins) == s;
    }
  }

  lemma EndsOrStays(cfg: Config, s: Sys, r: nat, op: RunOp)
    requires Wf(s) && r in s.runs && (op.Dropped? || op.RecordingEnds?)
    ensures var s' := RunSpec(cfg, s, r, op);
            s' == s || (s' == s.(core := s'.core, runs := Forget(s.runs, r)) && s'.core.store == s.core.store)
  {
  }

  lemma RunIsWorkerEnds(cfg: Config, s: Sys, r: nat, o: Outcome, now: Time)
    requires Wf(s) && r in s.runs && s.runs[r].phase.Working?
    ensures RunSpec(cfg, s, r, WorkerEnds(o, now)) == WorkerEndsSpec(cfg, s, r, s.runs[r].running, o, now)
  {
  }

  lemma RunStep(cfg: Config, s: Sys, r: nat, op: RunOp)
    requires Wf(s)
    ensures StoreStep(cfg, None_, s.core.store, RunSpec(cfg, s, r, op).core.store)
    ensures Resumed(s, RunSpec(cfg, s, r, op), r)
  {
    if op.WorkerEnds? && r in s.runs && s.runs[r].phase.Working? {
      WorkerEndsStep(cfg, s, r, s.runs[r].running, op.outcome, op.now);
      RunIsWorkerEnds(cfg, s, r, op.outcome, op.now);
    } else {
      QuietStep(cfg, s, r, op);
    }
  }

  lemma QuietStep(cfg: Config, s: Sys, r: nat, op: RunOp)
    requires Wf(s) && !(op.WorkerEnds? && r in s.runs && s.runs[r].phase.Working?)
    ensures RunSpec(cfg, s, r, op).core.store == s.core.store
    ensures StoreStep(cfg, None_, s.core.store, RunSpec(cfg, s, r, op).core.store)
    ensures Resumed(s, RunSpec(cfg, s, r, op), r)
  {
    if op.WorkerEnds? {
      assert RunSpec(cfg, s, r, op) == s;
    } else if op.StagingEnds? {
      if r in s.runs && s.runs[r].phase.Staging? {
        StagingEndsStep(cfg, s, r, s.runs[r].phase.completed, op.count);
      } else {
        assert RunSpec(cfg, s, r, op) == s;
      }
    } else {
      QuietResume(cfg, s, r, op);
    }
    assert RunSpec(cfg, s, r, op).core.store == s.core.store;
    SameStore(cfg, None_, s.core.store);
  }

  lemma CreateCallStep(cfg: Config, s: Sys, id: Id, origin: Origin, status: Status, preflight: Option<string>,
                       now: Time)
    requires Wf(s)
    ensures var job := NewJob(id, origin, status, now);
            StoreStep(cfg, RightOf(Create(id, origin, status, preflight, now)),
                      s.core.store, CreateCallSpec(cfg, s, job, preflight).core.store)
  {
    if id in s.core.store.jobs {
      SameStore(cfg, RightOf(Create(id, origin, status, preflight, now)), s.core.store);
    } else {
      CreateStep(cfg, s.core, NewJob(id, origin, status, now), preflight);
    }
  }

  lemma CancelResumesStep(cfg: Config, s: Sys, k: nat, now: Time)
    requires Wf(s)
    ensures StoreStep(cfg, None_, s.core.store, CancelResumesSpec(s, k, now).core.store)
  {
    if k in s.cancels {
      CancelEndStep(cfg, s.core, s.cancels[k].job, s.cancels[k].reason, now);
    } else {
      SameStore(cfg, None_, s.core.store);
    }
  }

  lemma StartEffect(cfg: Config, s: Sys, op: Op)
    requires Wf(s) && (op.Start? || op.StartBackground?)
    ensures StoreStep(cfg, RightOfCall(op), s.core.store, ApplyCall(cfg, s, op).core.store)
  {
    StartStep(cfg, s.core, op.job, op.at);
    StartBackgroundStep(cfg, s.core, op.job, s.nextRun, s.runs.Keys, op.at);
  }

  /** What one operation does to the jobs, whatever calls are suspended. */
  lemma CallEffect(cfg: Config, s: Sys, op: Op)
    requires Wf(s)
    ensures StoreStep(cfg, RightOfCall(op), s.core.store, ApplyCall(cfg, s, op).core.store)
  {
    match op
    case Direct(call) => DirectStep(cfg, s.core, call);
    case Create(id, origin, status, preflight, now) => CreateCallStep(cfg, s, id, origin, status, preflight, now);
    case Start(_, _) => StartEffect(cfg, s, op);
    case StartBackground(_, _) => StartEffect(cfg, s, op);
    case OfRun(r, resume) => RunStep(cfg, s, r, resume);
    case Cancel(id, reason, now) => CancelBeginStep(cfg, s.core, id, reason, now);
    case CancelResumes(k, now) => CancelResumesStep(cfg, s, k, now);
    case _ => SameStore(cfg, None_, s.core.store);
  }

  lemma RecoveredIsJobStep(job: Job, visited: bool, reason: string, now: Time)
    ensures JobStep(None_, job, RecoveredRecord(job, visited, reason, now))
  {
  }

  lemma RecoverAllStep(cfg: Config, c: Core, jobs: seq<Job>, reason: string, now: Time)
    requires ValidStore(c.store) && forall j :: j in jobs ==> j.id in c.store.jobs && c.store.jobs[j.id] == j
    ensures StoreStep(cfg, None_, c.store, RecoverAll(c, jobs, reason, now).store)
    ensures RecoverAll(c, jobs, reason, now).store.jobs.Keys == c.store.jobs.Keys
  {
    RecoverAllEffect(c, jobs, reason, now);
    forall id | id in c.store.jobs
      ensures JobStep(None_, c.store.jobs[id], RecoverAll(c, jobs, reason, now).store.jobs[id])
    {
      RecoveredIsJobStep(c.store.jobs[id], c.store.jobs[id] in jobs, reason, now);
    }
  }

  lemma TornRecoveryStep(cfg: Config, c: Core, text: string, now: Time, saves: nat, announced: bool)
    requires ValidStore(c.store)
    ensures var c' := TornRecovery(c, text, now, saves, announced);
            StoreStep(cfg, None_, c.store, c'.store) && c'.store.jobs.Keys == c.store.jobs.Keys
  {
    var jobs := Listed(c.store, ACTIVE_STATUSES);
    if saves >= |jobs| {
      SameStore(cfg, None_, c.store);
    } else {
      ListedAreStored(c.store, ACTIVE_STATUSES);
      forall j | j in jobs[..saves + 1] ensures j in jobs {
      }
      RecoverAllStep(cfg, c, jobs[..saves + 1], text, now);
    }
  }

  lemma ListedAreStored(s: Store, statuses: set<Status>)
    requires ValidStore(s)
    ensures forall j :: j in Listed(s, statuses) <==> j.id in s.jobs && s.jobs[j.id] == j && j.status in statuses
  {
    ValuesAreJobs(s);
    FilterIn(Values(s), InStatuses(statuses));
  }

  lemma TornEffect(cfg: Config, s: Sys, cut: Op)
    requires Wf(s)
    ensures StoreStep(cfg, RightOf(Torn(cut)), s.core.store, Apply(cfg, s, Torn(cut)).core.store)
  {
    if IsRecovery(cut) {
      SameStore(cfg, None_, s.core.store);
    } else {
      CallEffect(cfg, s, cut);
    }
  }

  /** The same for every operation, cut short or not. */
  lemma StepEffect(cfg: Config, s: Sys, op: Op)
    requires Wf(s)
    ensures StoreStep(cfg, RightOf(op), s.core.store, Apply(cfg, s, op).core.store)
  {
    match op
    case Torn(cut) => TornEffect(cfg, s, cut);
    case RecoveryTorn(text, now, saves, announced) => TornRecoveryStep(cfg, s.core, text, now, saves, announced);
    case _ => CallEffect(cfg, s, op);
  }

  lemma HeldPersists(cfg: Config, right: Right, a: Store, b: Store, runs: map<nat, Run>,
                     next: nat, cancels: map<nat, Canceling>)
    requires StoreStep(cfg, right, a, b) && RunsHeld(a, runs, next) && CancelsHeld(a, cancels)
    ensures RunsHeld(b, runs, next) && CancelsHeld(b, cancels)
  {
  }

  lemma RunStepKeepsRuns(cfg: Config, s: Sys, r: nat, op: RunOp)
    requires Wf(s)
    ensures Wf(RunSpec(cfg, s, r, op))
  {
    RunStep(cfg, s, r, op);
    var s' := RunSpec(cfg, s, r, op);
    HeldPersists(cfg, None_, s.core.store, s'.core.store, s.runs, s.nextRun, s.cancels);
    RunsStayHeld(s, s', r);
  }

  lemma RunsStayHeld(s: Sys, s': Sys, r: nat)
    requires Resumed(s, s', r) && RunsHeld(s'.core.store, s.runs, s.nextRun)
    ensures RunsHeld(s'.core.store, s'.runs, s'.nextRun)
  {
  }

  lemma BornKeepsWf(s: Sys, c: Core, job: Job)
    requires Wf(s) && job.id !in s.core.store.jobs && c.store == Put(s.core.store, job)
    ensures Wf(s.(core := c, born := s.born[job.id := job.status]))
  {
    PutValid(s.core.store, job);
  }

  lemma CreateKeepsWf(cfg: Config, s: Sys, job: Job, preflight: Option<string>)
    requires Wf(s)
    ensures Wf(CreateCallSpec(cfg, s, job, preflight))
  {
    if job.id !in s.core.store.jobs {
      CreateStep(cfg, s.core, job, preflight);
      var (c, o) := CreateSpec(cfg, s.core, job, preflight);
      if o.Created? {
        BornKeepsWf(s, c, job);
      }
    }
  }

  lemma CancelAdded(store: Store, cancels: map<nat, Canceling>, k: nat, c: Canceling)
    requires CancelsHeld(store, cancels) && Held(store, c.job)
    ensures CancelsHeld(store, cancels[k := c])
  {
  }

  lemma RunAdded(store: Store, runs: map<nat, Run>, next: nat, run: Run)
    requires RunsHeld(store, runs, next) && RunHeld(store, run)
    ensures RunsHeld(store, runs[next := run], next + 1)
  {
  }

  lemma StartKeepsWf(cfg: Config, s: Sys, id: Id, now: Time)
    requires Wf(s)
    ensures Wf(StartCallSpec(s, id, now))
  {
    StartStep(cfg, s.core, id, now);
    var (c, o) := StartSpec(s.core, id, now);
    HeldPersists(cfg, MayStart(id), s.core.store, c.store, s.runs, s.nextRun, s.cancels);
    if o.Launched? {
      RunAdded(c.store, s.runs, s.nextRun, Run(o.running, Working));
    }
  }

  lemma StartBackgroundKeepsWf(cfg: Config, s: Sys, id: Id, now: Time)
    requires Wf(s)
    ensures Wf(StartBackgroundCallSpec(s, id, now))
  {
    StartBackgroundStep(cfg, s.core, id, s.nextRun, s.runs.Keys, now);
    var c := StartBackgroundSpec(s.core, id, s.nextRun, s.runs.Keys, now).0;
    HeldPersists(cfg, MayStart(id), s.core.store, c.store, s.runs, s.nextRun, s.cancels);
    var o := StartBackgroundSpec(s.core, id, s.nextRun, s.runs.Keys, now).1;
    if o.Launched? {
      RunAdded(c.store, s.runs, s.nextRun, Run(o.running, Scheduled));
    }
  }

  lemma CancelKeepsWf(cfg: Config, s: Sys, id: Id, reason: string, now: Time)
    requires Wf(s)
    ensures Wf(CancelCallSpec(s, id, reason, now))
  {
    CancelBeginStep(cfg, s.core, id, reason, now);
    var (c, o) := CancelBeginSpec(s.core, id, reason, now);
    HeldPersists(cfg, None_, s.core.store, c.store, s.runs, s.nextRun, s.cancels);
    SameKeys(cfg, None_, s.core.store, c.store);
    if o.AwaitingWorker? {
      CancelAdded(c.store, s.cancels, s.nextCancel, Canceling(o.job, reason));
    }
  }

  lemma CallKeepsWf(cfg: Config, s: Sys, op: Op)
    requires Wf(s)
    ensures Wf(ApplyCall(cfg, s, op))
  {
    match op
    case Create(id, origin, status, preflight, now) =>
      CreateKeepsWf(cfg, s, NewJob(id, origin, status, now), preflight);
    case Start(id, now) => StartKeepsWf(cfg, s, id, now);
    case StartBackground(id, now) => StartBackgroundKeepsWf(cfg, s, id, now);
    case Cancel(id, reason, now) => CancelKeepsWf(cfg, s, id, reason, now);
    case OfRun(r, resume) => RunStepKeepsRuns(cfg, s, r, resume);
    case Direct(call) => DirectKeepsWf(cfg, s, call);
    case CancelResumes(k, now) => CancelResumesKeepsWf(cfg, s, k, now);
    case CancelDropped(k) =>
    case Restart =>
    case Torn(_) =>
    case RecoveryTorn(_, _, _, _) =>
  }

  lemma TornKeepsWf(cfg: Config, s: Sys, op: Op)
    requires Wf(s)
    ensures Wf(TornSpec(cfg, s, op))
  {
    CallKeepsWf(cfg, s, op);
  }

  /** Every operation keeps the system well-formed. */
  lemma StepKeepsWf(cfg: Config, s: Sys, op: Op)
    requires Wf(s)
    ensures Wf(Apply(cfg, s, op))
  {
    match op
    case Torn(cut) => TornKeepsWf(cfg, s, cut);
    case RecoveryTorn(text, now, saves, announced) => TornRecoveryStep(cfg, s.core, text, now, saves, announced);
    case _ => CallKeepsWf(cfg, s, op);
  }

  lemma CancelResumesKeepsWf(cfg: Config, s: Sys, k: nat, now: Time)
    requires Wf(s)
    ensures Wf(CancelResumesSpec(s, k, now))
  {
    CancelResumesStep(cfg, s, k, now);
    HeldPersists(cfg, None_, s.core.store, CancelResumesSpec(s, k, now).core.store, s.runs, s.nextRun, s.cancels);
  }

  lemma DirectKeepsWf(cfg: Config, s: Sys, call: DirectOp)
    requires Wf(s)
    ensures Wf(s.(core := DirectSpec(s.core, call)))
  {
    DirectStep(cfg, s.core, call);
    HeldPersists(cfg, RightOf(Direct(call)), s.core.store, DirectSpec(s.core, call).store, s.runs,
                 s.nextRun, s.cancels);
    if call.Recover? {
      RecoverEffect(s.core, call.text, call.now);
    }
  }

  /** A run of the system from `s`. */
  ghost function RunFrom(cfg: Config, s: Sys, ops: seq<Op>): (s': Sys)
    requires Wf(s)
    ensures Wf(s')
  {
    if ops == [] then s
    else
      var before := RunFrom(cfg, s, ops[..|ops| - 1]);
      StepKeepsWf(cfg, before, ops[|ops| - 1]);
      Apply(cfg, before, ops[|ops| - 1])
  }

  ghost function Reached(cfg: Config, ops: seq<Op>): (s: Sys)
    ensures Wf(s)
  {
    RunFrom(cfg, INIT, ops)
  }

  /** `p` holds in every state of the run of `ops` from `s`, the first included. */
  ghost predicate Always(cfg: Config, s: Sys, ops: seq<Op>, p: Sys -> bool)
    requires Wf(s)
  {
    p(RunFrom(cfg, s, ops)) && (ops != [] ==> Always(cfg, s, ops[..|ops| - 1], p))
  }

  /** No operation of the run meets the condition `q` in the state it is performed in. */
  ghost predicate Never(cfg: Config, s: Sys, ops: seq<Op>, q: (Sys, Op) -> bool)
    requires Wf(s)
  {
    ops != [] ==>
      && !q(RunFrom(cfg, s, ops[..|ops| - 1]), ops[|ops| - 1])
      && Never(cfg, s, ops[..|ops| - 1], q)
  }

  /** If one operation breaks `p` exactly when `q` holds, then `p` lasts through a run exactly
      when `q` never holds in it. */
  lemma {:induction false} AlwaysIffNever(cfg: Config, s: Sys, ops: seq<Op>, p: Sys -> bool, q: (Sys, Op) -> bool)
    requires Wf(s) && p(s)
    requires forall t, op :: Wf(t) && p(t) ==> (p(Apply(cfg, t, op)) <==> !q(t, op))
    ensures Always(cfg, s, ops, p) <==> Never(cfg, s, ops, q)
  {
    if ops != [] {
      var front, op := ops[..|ops| - 1], ops[|ops| - 1];
      AlwaysIffNever(cfg, s, front, p, q);
      var t := RunFrom(cfg, s, front);
      assert Always(cfg, s, front, p) ==> p(t);
      assert RunFrom(cfg, s, ops) == Apply(cfg, t, op);
    }
  }
}
