/** The event log against the stored jobs. */
module AuditLog {
  import opened Common
  import opened Jobs
  import opened JobStore
  import opened Runtime
  import opened Protocol
  import opened Saves

  /* ---- the log determines the stored status ---- */

  /** The kind of the last lifecycle event of a job. */
  function LastLifecycle(log: seq<Event>, id: Id): Option<EventKind> {
    if log == [] then None
    else
      var e := log[|log| - 1];
      if e.jobId == id && Lifecycle(e.kind) then Some(e.kind) else LastLifecycle(log[..|log| - 1], id)
  }

  /** The status a lifecycle event announces; `born` is the one the job was created with. */
  function StatusAfter(kind: EventKind, born: Status): Status {
    match kind
    case STARTED => Running
    case COMPLETED => Done
    case FAILED => Status.Failed
    case CANCELED => Status.Canceled
    case RECOVERED => NeedsReview
    case _ => born
  }

  ghost predicate Announces(log: seq<Event>, id: Id, born: Status, status: Status) {
    var last := LastLifecycle(log, id);
    last.Some? && StatusAfter(last.value, born) == status
  }

  /** The log tells the status the job is stored with. */
  ghost predicate AgreesOn(s: Sys, id: Id) {
    id in s.core.store.jobs ==> id in s.born && Announces(s.core.log, id, s.born[id], s.core.store.jobs[id].status)
  }

  ghost predicate LogAgrees(s: Sys) { forall id :: AgreesOn(s, id) }

  /** enqueue, complete and fail save without emitting. */
  predicate Silent(op: Op) {
    op.Direct? && (op.call.Enqueue? || op.call.Complete? || op.call.Fail?)
  }

  /** The event an operation emits with the record it saves, if that tells a status. */
  function Announced(op: Op): Option<EventKind> {
    match op
    case Create(_, _, _, _, _) => Some(CREATED)
    case Start(_, _) => Some(STARTED)
    case StartBackground(_, _) => Some(STARTED)
    case Cancel(_, _, _) => Some(CANCELED)
    case CancelResumes(_, _) => Some(CANCELED)
    case OfRun(_, WorkerEnds(o, _)) =>
      Some(match o case Returned(_) => COMPLETED
             case Raised(_, _) => FAILED
             case TimedOut(_) => FAILED
             case TaskCanceled => CANCELED)
    case _ => None
  }

  /* ---- the log after one operation ---- */

  lemma LastOfEmit(c: Core, j: Id, kind: EventKind, message: string, id: Id)
    ensures LastLifecycle(Emit(c, j, kind, message).log, id)
         == if j == id && Lifecycle(kind) then Some(kind) else LastLifecycle(c.log, id)
  {
    assert (c.log + [Event(j, kind, message)])[..|c.log|] == c.log;
  }

  /** The saved record is that of the job. */
  predicate SavesJob(record: Option<Job>, id: Id) { record.Some? && record.value.id == id }

  /** The last lifecycle event of a job after an operation that is not a recovery: the one that
      goes with its saved record, or else the one before. */
  lemma LastAfterCall(cfg: Config, s: Sys, op: Op, id: Id)
    requires Wf(s) && !IsRecovery(op)
    ensures LastLifecycle(ApplyCall(cfg, s, op).core.log, id)
         == if SavesJob(SavedRecord(cfg, s, op), id) && Announced(op).Some? then Announced(op)
            else LastLifecycle(s.core.log, id)
  {
    match op
    case Direct(call) => LastAfterDirect(s.core, call, id);
    case Create(j, origin, status, preflight, now) =>
      LastAfterCreate(cfg, s, NewJob(j, origin, status, now), preflight, id);
    case Start(j, now) => LastAfterStart(s, j, now, id);
    case StartBackground(j, now) => LastAfterStart(s, j, now, id);
    case OfRun(r, resume) => LastAfterResume(cfg, s, r, resume, id);
    case Cancel(j, reason, now) => LastAfterCancel(s, j, reason, now, id);
    case CancelResumes(k, now) =>
      if k in s.cancels {
        var canceled := CancelEndSpec(s.core, s.cancels[k].job, s.cancels[k].reason, now).1;
        LastOfEmit(SaveJob(s.core, canceled), canceled.id, CANCELED, canceled.error, id);
      }
    case CancelDropped(k) =>
    case Restart =>
    case Torn(_) =>
    case RecoveryTorn(_, _, _, _) =>
  }

  lemma LastAfterDirect(c: Core, call: DirectOp, id: Id)
    requires ValidStore(c.store) && !call.Recover?
    ensures LastLifecycle(DirectSpec(c, call).log, id) == LastLifecycle(c.log, id)
  {
    match call
    case Progress(j, text) => LastOfEmit(c, j, PROGRESS, text, id);
    case AttachFollowup(j, text) =>
      if j in c.store.jobs {
        var job := c.store.jobs[j].(followups := c.store.jobs[j].followups + [text]);
        LastOfEmit(SaveJob(c, job), job.id, FOLLOWUP_ATTACHED, if |text| <= 200 then text else text[..200], id);
      }
    case AttachArtifact(j, text) =>
      if j in c.store.jobs {
        var job := c.store.jobs[j].(artifacts := c.store.jobs[j].artifacts + [text]);
        LastOfEmit(SaveJob(c, job), job.id, ARTIFACT_ATTACHED, text, id);
      }
    case Register(_) =>
    case Enqueue(_, _) =>
    case Complete(_, _, _) =>
    case Fail(_, _, _) =>
  }

  lemma LastAfterCreate(cfg: Config, s: Sys, job: Job, preflight: Option<string>, id: Id)
    requires Wf(s)
    ensures LastLifecycle(CreateCallSpec(cfg, s, job, preflight).core.log, id)
         == if job.id !in s.core.store.jobs && CreateSpec(cfg, s.core, job, preflight).1.Created? && job.id == id
            then Some(CREATED) else LastLifecycle(s.core.log, id)
  {
    LastOfEmit(SaveJob(s.core, job), job.id, CREATED, "Created job", id);
  }

  lemma LastAfterStart(s: Sys, j: Id, now: Time, id: Id)
    requires Wf(s)
    ensures var started := Startable(s.core.store, j) && j == id;
            && LastLifecycle(StartCallSpec(s, j, now).core.log, id)
            == (if started then Some(STARTED) else LastLifecycle(s.core.log, id))
            && LastLifecycle(StartBackgroundCallSpec(s, j, now).core.log, id)
            == (if started && !LiveTask(s, j) then Some(STARTED) else LastLifecycle(s.core.log, id))
  {
    if Startable(s.core.store, j) {
      var running := WithStatus(s.core.store.jobs[j], Running, now);
      LastOfEmit(SaveJob(s.core, running), running.id, STARTED, "Agent job started", id);
    }
  }

  lemma LastAfterCancel(s: Sys, j: Id, reason: string, now: Time, id: Id)
    requires Wf(s)
    ensures LastLifecycle(CancelCallSpec(s, j, reason, now).core.log, id)
         == if j in s.core.store.jobs && !AwaitsWorker(s.core, j) && j == id then Some(CANCELED)
            else LastLifecycle(s.core.log, id)
  {
    if j in s.core.store.jobs {
      var canceled := CancelEndSpec(s.core, s.core.store.jobs[j], reason, now).1;
      LastOfEmit(SaveJob(s.core, canceled), canceled.id, CANCELED, canceled.error, id);
    }
  }

  lemma LastAfterEnd(c: Core, running: Job, o: Outcome, now: Time, id: Id)
    requires running.id in c.store.jobs && c.store.jobs[running.id].id == running.id
    ensures LastLifecycle(AfterWorkerSpec(c, running, o, now).0.log, id)
         == if SavesJob(SavedByEnd(c.store, running, o, now), id) then Announced(OfRun(0, WorkerEnds(o, now)))
            else LastLifecycle(c.log, id)
  {
    var record := SavedByEnd(c.store, running, o, now);
    if record.Some? {
      var kind := Announced(OfRun(0, WorkerEnds(o, now))).value;
      var message := AfterWorkerSpec(c, running, o, now).0.log[|c.log|].message;
      LastOfEmit(SaveJob(c, record.value), record.value.id, kind, message, id);
      assert AfterWorkerSpec(c, running, o, now).0 == Emit(SaveJob(c, record.value), record.value.id, kind, message);
    }
  }

  lemma EnterKeepsCore(cfg: Config, s: Sys, r: nat, running: Job, completed: Job)
    ensures EnterRecording(cfg, s, r, running, completed).core == s.core
    ensures EnterStaging(cfg, s, r, running, completed).core == s.core
  {
  }

  /** Resuming a run otherwise saves and logs nothing. */
  lemma QuietLog(cfg: Config, s: Sys, r: nat, op: RunOp)
    requires Wf(s)
    requires r in s.runs ==> !(s.runs[r].phase.Working? && op.WorkerEnds?)
                             && !(s.runs[r].phase.Staging? && op.StagingEnds?)
                             && !(s.runs[r].phase.Recording? && op.RecordingEnds?)
    ensures var c' := RunSpec(cfg, s, r, op).core; c'.store == s.core.store && c'.log == s.core.log
  {
  }

  lemma LastAfterResume(cfg: Config, s: Sys, r: nat, op: RunOp, id: Id)
    requires Wf(s)
    ensures LastLifecycle(RunSpec(cfg, s, r, op).core.log, id)
         == if SavesJob(SavedRecord(cfg, s, OfRun(r, op)), id) then Announced(OfRun(r, op))
            else LastLifecycle(s.core.log, id)
  {
    if r in s.runs && s.runs[r].phase.Working? && op.WorkerEnds? {
      var running := s.runs[r].running;
      LastAfterEnd(s.core, running, op.outcome, op.now, id);
      RunIsWorkerEnds(cfg, s, r, op.outcome, op.now);
      var (c, f) := AfterWorkerSpec(s.core, running, op.outcome, op.now);
      if f.Finished? {
        EnterKeepsCore(cfg, s.(core := c), r, running, f.completed);
      }
    } else if r in s.runs && s.runs[r].phase.Staging? && op.StagingEnds? {
      var completed := s.runs[r].phase.completed;
      LastAfterEffects(s.core, completed.id, op.count, id);
      EnterKeepsCore(cfg, s.(core := AfterStagingSpec(s.core, completed.id, op.count)),
                     r, s.runs[r].running, completed);
    } else if r in s.runs && s.runs[r].phase.Recording? && op.RecordingEnds? {
      LastAfterEffects(s.core, s.runs[r].phase.completed.id, op.count, id);
    } else {
      QuietLog(cfg, s, r, op);
    }
  }

  /** The events after staging and recording are no lifecycle events. */
  lemma LastAfterEffects(c: Core, j: Id, count: Option<int>, id: Id)
    ensures LastLifecycle(AfterStagingSpec(c, j, count).log, id) == LastLifecycle(c.log, id)
    ensures LastLifecycle(AfterRecordingSpec(c, j, count).log, id) == LastLifecycle(c.log, id)
  {
    LastOfEmit(c, j, PROGRESS, "Memory staging failed", id);
    LastOfEmit(c, j, MEMORY_STAGED, "Memory candidates staged", id);
    LastOfEmit(c, j, PROGRESS, "Budget usage recording failed", id);
    LastOfEmit(c, j, PROGRESS, "Budget usage recorded", id);
  }

  /* ---- the log after a recovery ---- */

  predicate Visits(jobs: seq<Job>, id: Id) {
    jobs != [] && (jobs[|jobs| - 1].id == id || Visits(jobs[..|jobs| - 1], id))
  }

  lemma {:induction false} VisitsStored(s: Store, jobs: seq<Job>, id: Id)
    requires id in s.jobs && forall j :: j in jobs ==> j.id in s.jobs && s.jobs[j.id] == j
    ensures s.jobs[id].id == id ==> (Visits(jobs, id) <==> s.jobs[id] in jobs)
  {
    if jobs != [] {
      var front, last := jobs[..|jobs| - 1], jobs[|jobs| - 1];
      assert jobs == front + [last];
      VisitsStored(s, front, id);
    }
  }

  lemma {:induction false} LastAfterRecoverAll(c: Core, jobs: seq<Job>, reason: string, now: Time, id: Id)
    ensures LastLifecycle(RecoverAll(c, jobs, reason, now).log, id)
         == if Visits(jobs, id) then Some(RECOVERED) else LastLifecycle(c.log, id)
  {
    if jobs != [] {
      var front, last := jobs[..|jobs| - 1], jobs[|jobs| - 1];
      LastAfterRecoverAll(c, front, reason, now, id);
      var before := RecoverAll(c, front, reason, now);
      LastOfEmit(SaveJob(before, WithStatus(last, NeedsReview, now, reason)), last.id, RECOVERED, reason, id);
    }
  }

  /* ---- the log against the stored status ---- */

  lemma RunKeepsBorn(cfg: Config, s: Sys, r: nat, op: RunOp)
    requires Wf(s)
    ensures RunSpec(cfg, s, r, op).born == s.born
  {
    RunStep(cfg, s, r, op);
  }

  lemma CreateBorn(cfg: Config, s: Sys, job: Job, preflight: Option<string>, id: Id)
    requires Wf(s)
    ensures var born' := CreateCallSpec(cfg, s, job, preflight).born;
            && (id in s.born ==> id in born' && born'[id] == s.born[id])
            && (id !in s.born && id in born' ==> born'[id] == job.status)
  {
  }

  lemma CallKeepsBorn(cfg: Config, s: Sys, op: Op, id: Id)
    requires Wf(s)
    ensures var born' := ApplyCall(cfg, s, op).born;
            && (id in s.born ==> id in born' && born'[id] == s.born[id])
            && (op.Create? && id !in s.born && id in born' ==> born'[id] == op.status)
  {
    if op.OfRun? {
      RunKeepsBorn(cfg, s, op.run, op.resume);
    } else if op.Create? {
      CreateBorn(cfg, s, NewJob(op.newId, op.origin, op.status, op.at), op.preflight, id);
    }
  }

  lemma EndTells(store: Store, running: Job, o: Outcome, now: Time, born: Status)
    requires running.id in store.jobs && SavedByEnd(store, running, o, now).Some?
    ensures StatusAfter(Announced(OfRun(0, WorkerEnds(o, now))).value, born)
         == SavedByEnd(store, running, o, now).value.status
  {
  }

  /** The event of an operation tells the status of the record it saves. */
  lemma AnnouncedTells(cfg: Config, s: Sys, op: Op, born: Status)
    requires Wf(s) && SavedRecord(cfg, s, op).Some? && Announced(op).Some? && (op.Create? ==> born == op.status)
    ensures StatusAfter(Announced(op).value, born) == SavedRecord(cfg, s, op).value.status
  {
    if op.OfRun? {
      EndTells(s.core.store, s.runs[op.run].running, op.resume.outcome, op.resume.now, born);
    }
  }

  /** An operation that is silent, or that is cut short, saves a record that no event tells of. */
  predicate Mute(op: Op) { op.Torn? || Silent(op) }

  /** The job at which an interrupted recovery saved but did not emit. */
  predicate LastOfRecovery(s: Sys, op: Op, id: Id)
    requires Wf(s)
  {
    var jobs := Listed(s.core.store, ACTIVE_STATUSES);
    op.RecoveryTorn? && !op.announced && op.saves < |jobs| && jobs[op.saves].id == id && !Visits(jobs[..op.saves], id)
  }

  /** The operation moves the job's stored status, or creates the job, without an event. */
  predicate MovesUnheard(cfg: Config, s: Sys, op: Op, id: Id)
    requires Wf(s)
  {
    if Recovers(op) then LastOfRecovery(s, op, id)
    else
      var record := SavedRecord(cfg, s, CallOf(op));
      Mute(op) && SavesJob(record, id)
      && (id !in s.core.store.jobs || s.core.store.jobs[id].status != record.value.status)
  }

  /** What saving `record`, with an event of kind `kind` or without one, does to the agreement
      on a job. */
  lemma SaveAgreement(s: Sys, s': Sys, id: Id, record: Option<Job>, kind: Option<EventKind>)
    requires s'.core.store == Saved(s.core.store, record)
    requires LastLifecycle(s'.core.log, id)
         == if SavesJob(record, id) && kind.Some? then kind else LastLifecycle(s.core.log, id)
    requires s.born.Keys == s.core.store.jobs.Keys && s'.born.Keys == s'.core.store.jobs.Keys
    requires id in s.born ==> id in s'.born && s'.born[id] == s.born[id]
    requires SavesJob(record, id) && kind.Some? ==>
             id in s'.born && StatusAfter(kind.value, s'.born[id]) == record.value.status
    ensures SavesJob(record, id) && kind.Some? ==> AgreesOn(s', id)
    ensures !SavesJob(record, id) && AgreesOn(s, id) ==> AgreesOn(s', id)
    ensures SavesJob(record, id) && kind.None? && id in s.core.store.jobs && AgreesOn(s, id)
            ==> (AgreesOn(s', id) <==> record.value.status == s.core.store.jobs[id].status)
  {
  }

  /** Attaching something keeps the status. */
  lemma OtherSavesKeepStatus(cfg: Config, s: Sys, op: Op)
    requires Wf(s) && !Silent(op) && Announced(op).None? && SavedRecord(cfg, s, op).Some?
    ensures var record := SavedRecord(cfg, s, op).value;
            record.id in s.core.store.jobs && record.status == s.core.store.jobs[record.id].status
  {
  }

  lemma CallAgreement(cfg: Config, s: Sys, op: Op, id: Id)
    requires Wf(s) && !Recovers(op) && !op.Torn?
    ensures id in s.core.store.jobs && AgreesOn(s, id)
            ==> (AgreesOn(ApplyCall(cfg, s, op), id) <==> !MovesUnheard(cfg, s, op, id))
    ensures SavesJob(SavedRecord(cfg, s, op), id) && Announced(op).Some? ==> AgreesOn(ApplyCall(cfg, s, op), id)
    ensures AgreesOn(s, id) && !MovesUnheard(cfg, s, op, id) ==> AgreesOn(ApplyCall(cfg, s, op), id)
  {
    var record, s' := SavedRecord(cfg, s, op), ApplyCall(cfg, s, op);
    SavesOne(cfg, s, op);
    LastAfterCall(cfg, s, op, id);
    CallKeepsBorn(cfg, s, op, id);
    CallKeepsWf(cfg, s, op);
    if SavesJob(record, id) && Announced(op).Some? {
      if op.Create? {
        CreatedIsNew(cfg, s, op);
      }
      AnnouncedTells(cfg, s, op, s'.born[id]);
    } else if SavesJob(record, id) && !Silent(op) {
      OtherSavesKeepStatus(cfg, s, op);
    }
    SaveAgreement(s, s', id, record, Announced(op));
  }

  lemma CreatedIsNew(cfg: Config, s: Sys, op: Op)
    requires Wf(s) && op.Create? && SavedRecord(cfg, s, op).Some?
    ensures SavedRecord(cfg, s, op).value.id !in s.born
  {
  }

  lemma TornEffect(cfg: Config, s: Sys, cut: Op, id: Id)
    requires Wf(s) && !IsRecovery(cut)
    ensures var s' := TornSpec(cfg, s, cut);
            && Wf(s') && s'.core.store == Saved(s.core.store, SavedRecord(cfg, s, cut)) && s'.core.log == s.core.log
            && (id in s.born ==> id in s'.born && s'.born[id] == s.born[id])
  {
    SavesOne(cfg, s, cut);
    CallKeepsBorn(cfg, s, cut, id);
    TornKeepsWf(cfg, s, cut);
  }

  lemma UnheardWhenTorn(cfg: Config, s: Sys, cut: Op, id: Id)
    requires Wf(s) && !IsRecovery(cut)
    ensures var record := SavedRecord(cfg, s, cut);
            MovesUnheard(cfg, s, Torn(cut), id) <==>
            SavesJob(record, id) && (id !in s.core.store.jobs || s.core.store.jobs[id].status != record.value.status)
  {
  }

  lemma TornAgreement(cfg: Config, s: Sys, cut: Op, id: Id)
    requires Wf(s)
    ensures var s' := TornSpec(cfg, s, cut);
            && (AgreesOn(s, id) && !MovesUnheard(cfg, s, Torn(cut), id) ==> AgreesOn(s', id))
            && (id in s.core.store.jobs && AgreesOn(s, id) && MovesUnheard(cfg, s, Torn(cut), id) ==> !AgreesOn(s', id))
  {
    if !IsRecovery(cut) {
      TornEffect(cfg, s, cut, id);
      UnheardWhenTorn(cfg, s, cut, id);
      SaveAgreement(s, TornSpec(cfg, s, cut), id, SavedRecord(cfg, s, cut), None);
    }
  }

  /** The recovery emits an event for the job. */
  predicate RecoveryTells(s: Sys, op: Op, id: Id)
    requires Wf(s)
  {
    var jobs := Listed(s.core.store, ACTIVE_STATUSES);
    if op.RecoveryTorn? then
      op.saves < |jobs| && Visits(if op.announced then jobs[..op.saves + 1] else jobs[..op.saves], id)
    else IsRecovery(op) && Visits(jobs, id)
  }

  lemma RecoveryLog(cfg: Config, s: Sys, op: Op, id: Id)
    requires Wf(s) && Recovers(op)
    ensures LastLifecycle(Apply(cfg, s, op).core.log, id)
         == if RecoveryTells(s, op, id) then Some(RECOVERED) else LastLifecycle(s.core.log, id)
    ensures Apply(cfg, s, op).born == s.born
  {
    if IsRecovery(op) {
      LastAfterRecoverAll(s.core, Listed(s.core.store, ACTIVE_STATUSES), op.call.text, op.call.now, id);
    } else if op.RecoveryTorn? {
      TornRecoveryLog(s.core, op.text, op.at, op.saves, op.announced, id);
    }
  }

  lemma TornRecoveryLog(c: Core, text: string, now: Time, saves: nat, announced: bool, id: Id)
    requires ValidStore(c.store)
    ensures var jobs := Listed(c.store, ACTIVE_STATUSES);
            LastLifecycle(TornRecovery(c, text, now, saves, announced).log, id)
            == if saves < |jobs| && Visits(if announced then jobs[..saves + 1] else jobs[..saves], id)
               then Some(RECOVERED)
               else LastLifecycle(c.log, id)
  {
    var jobs := Listed(c.store, ACTIVE_STATUSES);
    if saves < |jobs| {
      LastAfterRecoverAll(c, jobs[..saves], text, now, id);
      LastAfterRecoverAll(c, jobs[..saves + 1], text, now, id);
    }
  }

  /** A recovery saves the job exactly when it tells of it, or is cut short just there. */
  lemma RecoverySaves(s: Sys, op: Op, id: Id)
    requires Wf(s) && Recovers(op) && id in s.core.store.jobs
    ensures Recovered(s, op, id) <==> RecoveryTells(s, op, id) || LastOfRecovery(s, op, id)
    ensures !(RecoveryTells(s, op, id) && LastOfRecovery(s, op, id))
  {
    var jobs := Listed(s.core.store, ACTIVE_STATUSES);
    ListedAreStored(s.core.store, ACTIVE_STATUSES);
    if op.RecoveryTorn? && op.saves < |jobs| {
      var n := op.saves;
      forall j | j in jobs[..n + 1] ensures j in jobs {
      }
      VisitsStored(s.core.store, jobs[..n + 1], id);
      assert jobs[..n + 1][..n] == jobs[..n];
      assert Visits(jobs[..n + 1], id) <==> jobs[n].id == id || Visits(jobs[..n], id);
    } else {
      VisitsStored(s.core.store, jobs, id);
    }
  }

  lemma RecoveryAgreement(cfg: Config, s: Sys, op: Op, id: Id)
    requires Wf(s) && Recovers(op)
    ensures var s' := Apply(cfg, s, op);
            && (RecoveryTells(s, op, id) ==> AgreesOn(s', id))
            && (AgreesOn(s, id) && !MovesUnheard(cfg, s, op, id) ==> AgreesOn(s', id))
            && (id in s.core.store.jobs && AgreesOn(s, id) && MovesUnheard(cfg, s, op, id) ==> !AgreesOn(s', id))
  {
    RecoveryLog(cfg, s, op, id);
    StoreAfterRecovery(cfg, s, op);
    if id in s.core.store.jobs {
      RecoverySaves(s, op, id);
    }
  }

  /** The operation emits an event for the job that tells its new status. */
  predicate Tells(cfg: Config, s: Sys, op: Op, id: Id)
    requires Wf(s)
  {
    if Recovers(op) then RecoveryTells(s, op, id)
    else !op.Torn? && SavesJob(SavedRecord(cfg, s, op), id) && Announced(op).Some?
  }

  /** One operation takes the agreement on a stored job away if and only if it moves the job's
      status unheard; an operation that tells the status brings it back. */
  lemma StepAgreement(cfg: Config, s: Sys, op: Op, id: Id)
    requires Wf(s)
    ensures var s' := Apply(cfg, s, op);
            && (id in s.core.store.jobs && AgreesOn(s, id) ==> (AgreesOn(s', id) <==> !MovesUnheard(cfg, s, op, id)))
            && (AgreesOn(s, id) && !MovesUnheard(cfg, s, op, id) ==> AgreesOn(s', id))
            && (Tells(cfg, s, op, id) ==> AgreesOn(s', id))
  {
    if Recovers(op) {
      RecoveryAgreement(cfg, s, op, id);
    } else if op.Torn? {
      TornAgreement(cfg, s, op.cut, id);
    } else {
      CallAgreement(cfg, s, op, id);
    }
  }

  /** No operation does this to two jobs. */
  lemma OneJobUnheard(cfg: Config, s: Sys, op: Op, x: Id, y: Id)
    requires Wf(s) && MovesUnheard(cfg, s, op, x) && MovesUnheard(cfg, s, op, y)
    ensures x == y
  {
  }

  /* ---- whole runs ---- */

  /** The job was last moved unheard, and no event has told its status since. */
  ghost predicate Untold(cfg: Config, ops: seq<Op>, id: Id) {
    ops != [] &&
    var s, op := Reached(cfg, ops[..|ops| - 1]), ops[|ops| - 1];
    MovesUnheard(cfg, s, op, id) || (Untold(cfg, ops[..|ops| - 1], id) && !Tells(cfg, s, op, id))
  }

  /** In every run, silent calls and deaths between a save and its event included, at every
      suspension point the last lifecycle event of a job determines its stored status, unless
      the job is untold of. */
  lemma {:induction false} LogDeterminesStatus(cfg: Config, ops: seq<Op>, id: Id)
    requires !Untold(cfg, ops, id)
    ensures AgreesOn(Reached(cfg, ops), id)
  {
    if ops != [] {
      var front, op := ops[..|ops| - 1], ops[|ops| - 1];
      if !Untold(cfg, front, id) {
        LogDeterminesStatus(cfg, front, id);
      }
      StepAgreement(cfg, Reached(cfg, front), op, id);
    }
  }

  /** A job on which the log agrees is agreed on ever after if and only if nothing moves its
      status unheard. */
  lemma AgreementLastsIff(cfg: Config, s: Sys, ops: seq<Op>, id: Id)
    requires Wf(s) && id in s.core.store.jobs && AgreesOn(s, id)
    ensures Always(cfg, s, ops, (t: Sys) => id in t.core.store.jobs && AgreesOn(t, id))
       <==> Never(cfg, s, ops, (t: Sys, op: Op) => Wf(t) && MovesUnheard(cfg, t, op, id))
  {
    var p := (t: Sys) => id in t.core.store.jobs && AgreesOn(t, id);
    var q := (t: Sys, op: Op) => Wf(t) && MovesUnheard(cfg, t, op, id);
    forall t, op | Wf(t) && p(t)
      ensures p(Apply(cfg, t, op)) <==> !q(t, op)
    {
      StepAgreement(cfg, t, op, id);
      StepEffect(cfg, t, op);
    }
    AlwaysIffNever(cfg, s, ops, p, q);
  }

  /** Without silent calls and without deaths between a save and its event, log and store
      agree on every job. */
  lemma {:induction false} LogAlwaysAgrees(cfg: Config, ops: seq<Op>)
    requires forall op :: op in ops ==> !Mute(op) && (op.RecoveryTorn? ==> op.announced)
    ensures LogAgrees(Reached(cfg, ops))
  {
    if ops != [] {
      var front, op := ops[..|ops| - 1], ops[|ops| - 1];
      assert op in ops;
      LogAlwaysAgrees(cfg, front);
      forall id
        ensures AgreesOn(Reached(cfg, ops), id)
      {
        StepAgreement(cfg, Reached(cfg, front), op, id);
      }
    }
  }

  /** In particular, enqueue, complete and fail leave the log in agreement exactly when the
      status they save is the one the job had. */
  lemma SilentCallBreaksAgreement(cfg: Config, s: Sys, op: Op)
    requires Wf(s) && Silent(op) && op.call.id in s.core.store.jobs && LogAgrees(s)
    ensures LogAgrees(Apply(cfg, s, op)) <==>
            s.core.store.jobs[op.call.id].status ==
            if op.call.Enqueue? then Queued else if op.call.Complete? then Done else Status.Failed
  {
    forall id
      ensures id in s.core.store.jobs ==> (AgreesOn(Apply(cfg, s, op), id) <==> !MovesUnheard(cfg, s, op, id))
      ensures !MovesUnheard(cfg, s, op, id) ==> AgreesOn(Apply(cfg, s, op), id)
    {
      StepAgreement(cfg, s, op, id);
    }
    var id := op.call.id;
    assert MovesUnheard(cfg, s, op, id) ==> !AgreesOn(Apply(cfg, s, op), id);
  }
}
