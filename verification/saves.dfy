/** What one operation writes: every operation but a recovery saves at most one record. */
module Saves {
  import opened Common
  import opened Jobs
  import opened JobStore
  import opened Runtime
  import opened Protocol

  function SavedByDirect(store: Store, call: DirectOp): Option<Job> {
    match call
    case Enqueue(id, now) =>
      if id in store.jobs then Some(WithStatus(store.jobs[id], Queued, now)) else None
    case Complete(id, capsule, now) =>
      if id in store.jobs then Some(WithStatus(store.jobs[id], Done, now, "", Some(capsule))) else None
    case Fail(id, text, now) =>
      if id in store.jobs then Some(WithStatus(store.jobs[id], Failed, now, text)) else None
    case AttachFollowup(id, text) =>
      if id in store.jobs && !Terminal(store.jobs[id].status)
      then Some(store.jobs[id].(followups := store.jobs[id].followups + [text])) else None
    case AttachArtifact(id, text) =>
      if id in store.jobs && !Terminal(store.jobs[id].status)
      then Some(store.jobs[id].(artifacts := store.jobs[id].artifacts + [text])) else None
    case _ => None
  }

  /** The record at the end of a worker's await; a timeout does not look at the current one. */
  function SavedByEnd(store: Store, running: Job, o: Outcome, now: Time): Option<Job>
    requires running.id in store.jobs
  {
    var current := store.jobs[running.id];
    if o.TimedOut? then Some(WithStatus(running, Failed, now, o.reason, Some(TimeoutCapsule(o.reason))))
    else if Terminal(current.status) then None
    else
      match o
      case TaskCanceled => Some(WithStatus(current, Canceled, now, "background task canceled"))
      case Raised(message, partial) => Some(WithStatus(current, Failed, now, message, partial))
      case Returned(capsule) => Some(WithStatus(running, Done, now, "", Some(capsule)))
      case TimedOut(_) => None
  }

  predicate Startable(store: Store, id: Id) { id in store.jobs && !Terminal(store.jobs[id].status) }

  /** A background task of the job that the runtime knows of and that is not done. */
  predicate LiveTask(s: Sys, id: Id) { id in s.core.background && s.core.background[id] in s.runs.Keys }

  function SavedRecord(cfg: Config, s: Sys, op: Op): Option<Job>
    requires Wf(s)
  {
    var store := s.core.store;
    match op
    case Direct(call) => SavedByDirect(store, call)
    case Create(id, origin, status, preflight, now) =>
      if id in store.jobs || !CreateSpec(cfg, s.core, NewJob(id, origin, status, now), preflight).1.Created? then None
      else Some(NewJob(id, origin, status, now))
    case Start(id, now) => if Startable(store, id) then Some(WithStatus(store.jobs[id], Running, now)) else None
    case StartBackground(id, now) =>
      if Startable(store, id) && !LiveTask(s, id) then Some(WithStatus(store.jobs[id], Running, now)) else None
    case OfRun(r, WorkerEnds(o, now)) =>
      if r in s.runs && s.runs[r].phase.Working? then SavedByEnd(store, s.runs[r].running, o, now) else None
    case Cancel(id, reason, now) =>
      if id in store.jobs && !AwaitsWorker(s.core, id)
      then Some(CancelEndSpec(s.core, store.jobs[id], reason, now).1) else None
    case CancelResumes(k, now) =>
      if k in s.cancels then Some(CancelEndSpec(s.core, s.cancels[k].job, s.cancels[k].reason, now).1) else None
    case _ => None
  }

  /** `cancel` asks the worker of a RUNNING job first, when it is registered. */
  predicate AwaitsWorker(c: Core, id: Id)
    requires id in c.store.jobs
  {
    c.store.jobs[id].origin.worker in c.workers && c.store.jobs[id].status.Running?
  }

  function Saved(store: Store, record: Option<Job>): Store { if record.Some? then Put(store, record.value) else store }

  lemma DirectSavesOne(c: Core, call: DirectOp)
    requires ValidStore(c.store) && !call.Recover?
    ensures DirectSpec(c, call).store == Saved(c.store, SavedByDirect(c.store, call))
  {
  }

  lemma EndSavesOne(cfg: Config, s: Sys, r: nat, o: Outcome, now: Time)
    requires Wf(s) && r in s.runs && s.runs[r].phase.Working?
    ensures ApplyCall(cfg, s, OfRun(r, WorkerEnds(o, now))).core.store
         == Saved(s.core.store, SavedByEnd(s.core.store, s.runs[r].running, o, now))
  {
    RunIsWorkerEnds(cfg, s, r, o, now);
    var running := s.runs[r].running;
    var (c, f) := AfterWorkerSpec(s.core, running, o, now);
    if f.Finished? {
      EnterKeeps(cfg, s.(core := c), r, running, f.completed);
    }
    assert c.store == Saved(s.core.store, SavedByEnd(s.core.store, running, o, now));
  }

  lemma CreateSavesOne(cfg: Config, s: Sys, job: Job, preflight: Option<string>)
    requires Wf(s)
    ensures CreateCallSpec(cfg, s, job, preflight).core.store
         == if job.id in s.core.store.jobs || !CreateSpec(cfg, s.core, job, preflight).1.Created? then s.core.store
            else Put(s.core.store, job)
  {
    if job.id !in s.core.store.jobs {
      CreateStep(cfg, s.core, job, preflight);
    }
  }

  lemma StartSavesOne(s: Sys, id: Id, now: Time)
    ensures var jobs := s.core.store.jobs;
            var running := if id in jobs then Some(WithStatus(jobs[id], Running, now)) else None;
            && StartCallSpec(s, id, now).core.store
            == Saved(s.core.store, if Startable(s.core.store, id) then running else None)
            && StartBackgroundCallSpec(s, id, now).core.store
            == Saved(s.core.store, if Startable(s.core.store, id) && !LiveTask(s, id) then running else None)
  {
  }

  lemma CancelSavesOne(s: Sys, id: Id, reason: string, now: Time)
    ensures CancelCallSpec(s, id, reason, now).core.store
         == if id !in s.core.store.jobs || AwaitsWorker(s.core, id) then s.core.store
            else Put(s.core.store, CancelEndSpec(s.core, s.core.store.jobs[id], reason, now).1)
  {
  }

  /** The store after an operation that is not a recovery. */
  lemma SavesOne(cfg: Config, s: Sys, op: Op)
    requires Wf(s) && !IsRecovery(op)
    ensures ApplyCall(cfg, s, op).core.store == Saved(s.core.store, SavedRecord(cfg, s, op))
  {
    match op
    case Direct(call) => DirectSavesOne(s.core, call);
    case Create(id, origin, status, preflight, now) =>
      CreateSavesOne(cfg, s, NewJob(id, origin, status, now), preflight);
    case Start(id, now) => StartSavesOne(s, id, now);
    case StartBackground(id, now) => StartSavesOne(s, id, now);
    case OfRun(r, resume) =>
      if resume.WorkerEnds? && r in s.runs && s.runs[r].phase.Working? {
        EndSavesOne(cfg, s, r, resume.outcome, resume.now);
      } else {
        QuietStep(cfg, s, r, resume);
      }
    case Cancel(id, reason, now) => CancelSavesOne(s, id, reason, now);
    case CancelResumes(k, now) =>
    case CancelDropped(k) =>
    case Restart =>
    case Torn(_) =>
    case RecoveryTorn(_, _, _, _) =>
  }

  /** The operation that was performed, or cut short. */
  function CallOf(op: Op): Op { if op.Torn? then op.cut else op }

  /** Some recovery writes, in full, in part, or not at all because it is cut short. */
  predicate Recovers(op: Op) { IsRecovery(CallOf(op)) || op.RecoveryTorn? }

  lemma StoreAfter(cfg: Config, s: Sys, op: Op)
    requires Wf(s) && !Recovers(op)
    ensures Apply(cfg, s, op).core.store == Saved(s.core.store, SavedRecord(cfg, s, CallOf(op)))
  {
    SavesOne(cfg, s, CallOf(op));
  }

  /** Whether a recovery gets as far as saving the job. */
  predicate Recovered(s: Sys, op: Op, id: Id)
    requires Wf(s) && id in s.core.store.jobs
  {
    var jobs := Listed(s.core.store, ACTIVE_STATUSES);
    && s.core.store.jobs[id].status in ACTIVE_STATUSES
    && (IsRecovery(op) || (op.RecoveryTorn? && op.saves < |jobs| && s.core.store.jobs[id] in jobs[..op.saves + 1]))
  }

  /** A recovery moves the jobs it gets to, and keeps every other record. */
  lemma StoreAfterRecovery(cfg: Config, s: Sys, op: Op)
    requires Wf(s) && Recovers(op)
    ensures var store, store' := s.core.store, Apply(cfg, s, op).core.store;
            && store'.jobs.Keys == store.jobs.Keys
            && (forall id :: id in store.jobs ==>
                  if Recovered(s, op, id) then RecoveryOf(op, store.jobs[id]) == store'.jobs[id]
                  else store'.jobs[id] == store.jobs[id])
  {
    if IsRecovery(op) {
      RecoverEffect(s.core, op.call.text, op.call.now);
    } else if op.RecoveryTorn? {
      TornRecoveryKeeps(s.core, op.text, op.at, op.saves, op.announced);
    }
  }

  function RecoveryOf(op: Op, job: Job): Job {
    if op.RecoveryTorn? then WithStatus(job, NeedsReview, op.at, op.text)
    else if IsRecovery(op) then WithStatus(job, NeedsReview, op.call.now, op.call.text)
    else job
  }

  lemma TornRecoveryKeeps(c: Core, text: string, now: Time, saves: nat, announced: bool)
    requires ValidStore(c.store)
    ensures var jobs := Listed(c.store, ACTIVE_STATUSES);
            var store' := TornRecovery(c, text, now, saves, announced).store;
            && store'.jobs.Keys == c.store.jobs.Keys
            && (forall id :: id in c.store.jobs ==>
                  var job := c.store.jobs[id];
                  store'.jobs[id] == RecoveredRecord(job, saves < |jobs| && job in jobs[..saves + 1], text, now))
            && (saves < |jobs| ==> forall j :: j in jobs[..saves + 1] ==> j.status in ACTIVE_STATUSES)
  {
    var jobs := Listed(c.store, ACTIVE_STATUSES);
    ListedAreStored(c.store, ACTIVE_STATUSES);
    if saves < |jobs| {
      forall j | j in jobs[..saves + 1] ensures j in jobs {
      }
      RecoverAllEffect(c, jobs[..saves + 1], text, now);
    }
  }
}
