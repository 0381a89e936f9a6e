/** What one job can cause at most once, however often and concurrently it is started. */
module Effects {
  import opened Common
  import opened Jobs
  import opened JobStore
  import opened Runtime
  import opened Protocol
  import opened Safety
  import opened AuditLog

  function IsCompletion(id: Id): Event -> bool { (e: Event) => e.jobId == id && e.kind.COMPLETED? }

  function Completions(c: Core, id: Id): nat { Count(c.log, IsCompletion(id)) }

  /** The runs of the job that are handing its candidates to the memory sink. */
  function StagingRuns(runs: map<nat, Run>, id: Id): set<nat> {
    set r | r in runs && runs[r].phase.Staging? && runs[r].running.id == id
  }

  /** Usage recordings of the job, made or still to come from a staging run. */
  function Recordings(s: Sys, id: Id): nat { Count(s.recorded, IsId(id)) + |StagingRuns(s.runs, id)| }

  /** The operation by which a run of the job ends with a result that counts. */
  ghost predicate Completing(s: Sys, op: Op, id: Id) {
    && op.OfRun? && op.run in s.runs && s.runs[op.run].phase.Working? && s.runs[op.run].running.id == id
    && op.resume.WorkerEnds? && op.resume.outcome.Returned? && !TerminalIn(s, id)
  }

  /* ---- counting completions ---- */

  lemma EmitCounts(c: Core, id: Id, kind: EventKind, message: string, other: Id)
    ensures Completions(Emit(c, id, kind, message), other)
         == Completions(c, other) + if kind.COMPLETED? && id == other then 1 else 0
  {
    CountAppend(c.log, Event(id, kind, message), IsCompletion(other));
  }

  lemma CommitCounts(c: Core, job: Job, kind: EventKind, message: string, other: Id)
    ensures Completions(Commit(c, job, kind, message), other)
            == Completions(c, other) + if kind.COMPLETED? && job.id == other then 1 else 0
  {
    EmitCounts(SaveJob(c, job), job.id, kind, message, other);
  }

  lemma {:induction false} RecoverCounts(c: Core, jobs: seq<Job>, reason: string, now: Time, id: Id)
    ensures Completions(RecoverAll(c, jobs, reason, now), id) == Completions(c, id)
  {
    if jobs != [] {
      var front, last := jobs[..|jobs| - 1], jobs[|jobs| - 1];
      RecoverCounts(c, front, reason, now, id);
      CommitCounts(RecoverAll(c, front, reason, now), WithStatus(last, NeedsReview, now, reason),
                   RECOVERED, reason, id);
    }
  }

  lemma DirectCounts(c: Core, call: DirectOp, id: Id)
    requires ValidStore(c.store)
    ensures Completions(DirectSpec(c, call), id) == Completions(c, id)
  {
    match call
    case Register(_) =>
    case Progress(j, text) => EmitCounts(c, j, PROGRESS, text, id);
    case Recover(text, now) => RecoverCounts(c, Listed(c.store, ACTIVE_STATUSES), text, now, id);
    case AttachFollowup(j, text) =>
      if j in c.store.jobs {
        var job := c.store.jobs[j];
        CommitCounts(c, job.(followups := job.followups + [text]), FOLLOWUP_ATTACHED,
                     if |text| <= 200 then text else text[..200], id);
      }
    case AttachArtifact(j, text) =>
      if j in c.store.jobs {
        var job := c.store.jobs[j];
        CommitCounts(c, job.(artifacts := job.artifacts + [text]), ARTIFACT_ATTACHED, text, id);
      }
    case Enqueue(_, _) =>
    case Complete(_, _, _) =>
    case Fail(_, _, _) =>
  }

  lemma StartCounts(c: Core, j: Id, task: nat, live: set<nat>, now: Time, id: Id)
    ensures Completions(StartSpec(c, j, now).0, id) == Completions(c, id)
    ensures Completions(StartBackgroundSpec(c, j, task, live, now).0, id) == Completions(c, id)
  {
    if j in c.store.jobs {
      CommitCounts(c, WithStatus(c.store.jobs[j], Running, now), STARTED, "Agent job started", id);
    }
  }

  lemma CancelCounts(c: Core, job: Job, reason: string, now: Time, id: Id)
    ensures Completions(CancelEndSpec(c, job, reason, now).0, id) == Completions(c, id)
  {
    var canceled := CancelEndSpec(c, job, reason, now).1;
    CommitCounts(c, canceled, CANCELED, canceled.error, id);
  }

  lemma AfterWorkerCounts(c: Core, running: Job, o: Outcome, now: Time, id: Id)
    requires ValidStore(c.store) && running.id in c.store.jobs
    ensures var (c', f) := AfterWorkerSpec(c, running, o, now);
            var counts := o.Returned? && !Terminal(c.store.jobs[running.id].status);
            && Completions(c', id) == Completions(c, id) + (if counts && running.id == id then 1 else 0)
            && (f.Finished? <==> counts) && (f.Finished? ==> f.completed.id == running.id)
  {
    var current := c.store.jobs[running.id];
    match o
    case TaskCanceled =>
      var canceled := WithStatus(current, Status.Canceled, now, "background task canceled");
      CommitCounts(c, canceled, CANCELED, canceled.error, id);
    case TimedOut(reason) =>
      CommitCounts(c, WithStatus(running, Status.Failed, now, reason, Some(TimeoutCapsule(reason))),
                   FAILED, reason, id);
    case Raised(message, partial) =>
      CommitCounts(c, WithStatus(current, Status.Failed, now, message, partial), FAILED, message, id);
    case Returned(capsule) =>
      CommitCounts(c, WithStatus(running, Done, now, "", Some(capsule)), COMPLETED, capsule.summary, id);
  }

  /* ---- one operation ---- */

  /** The counters move only by a completion of the job, and then by at most one each. */
  ghost predicate Tallied(s: Sys, s': Sys, id: Id, completes: bool) {
    var n := if completes then 1 else 0;
    && Completions(s'.core, id) == Completions(s.core, id) + n
    && Count(s'.staged, IsId(id)) <= Count(s.staged, IsId(id)) + n
    && Recordings(s', id) <= Recordings(s, id) + n
  }

  lemma StagingRunsShrink(a: map<nat, Run>, b: map<nat, Run>, id: Id)
    requires forall r :: r in b && b[r].phase.Staging? ==> r in a && a[r] == b[r]
    ensures |StagingRuns(b, id)| <= |StagingRuns(a, id)|
  {
    SubsetSize(StagingRuns(b, id), StagingRuns(a, id));
  }

  /** Run `r` stops staging: one reservation less if it was staging for the job. */
  lemma StagingRunLeaves(a: map<nat, Run>, b: map<nat, Run>, r: nat, id: Id)
    requires r in a && (r in b ==> !b[r].phase.Staging?)
    requires forall k :: k != r ==> (k in b <==> k in a) && (k in a ==> b[k] == a[k])
    ensures |StagingRuns(b, id)| == |StagingRuns(a, id)| - if a[r].phase.Staging? && a[r].running.id == id then 1 else 0
  {
    var before, after := StagingRuns(a, id), StagingRuns(b, id);
    forall k | k != r
      ensures k in before <==> k in after
    {
    }
    assert r !in after;
    assert after == before - {r};
  }

  /** Entering the recorder costs one recording, which a run that was staging had reserved. */
  lemma EnterRecordingTallies(cfg: Config, s: Sys, r: nat, running: Job, completed: Job, id: Id)
    requires r in s.runs && s.runs[r].running.id == running.id == completed.id
    ensures var s' := EnterRecording(cfg, s, r, running, completed);
            && s'.core == s.core && s'.staged == s.staged
            && Recordings(s', id) <= Recordings(s, id) + if running.id == id && !s.runs[r].phase.Staging? then 1 else 0
  {
    var s' := EnterRecording(cfg, s, r, running, completed);
    CountAppend(s.recorded, completed.id, IsId(id));
    StagingRunLeaves(s.runs, s'.runs, r, id);
  }

  lemma EnterStagingTallies(cfg: Config, s: Sys, r: nat, running: Job, completed: Job, id: Id)
    requires r in s.runs && s.runs[r].phase.Working? && s.runs[r].running.id == running.id == completed.id
    ensures var s' := EnterStaging(cfg, s, r, running, completed);
            var n := if running.id == id then 1 else 0;
            && s'.core == s.core
            && Count(s'.staged, IsId(id)) <= Count(s.staged, IsId(id)) + n
            && Recordings(s', id) <= Recordings(s, id) + n
  {
    var s' := EnterStaging(cfg, s, r, running, completed);
    if s'.staged == s.staged {
      EnterRecordingTallies(cfg, s, r, running, completed, id);
    } else {
      CountAppend(s.staged, completed.id, IsId(id));
      if running.id == id {
        assert StagingRuns(s'.runs, id) == StagingRuns(s.runs, id) + {r};
      } else {
        assert StagingRuns(s'.runs, id) == StagingRuns(s.runs, id);
      }
    }
  }

  lemma WorkerEndsTallies(cfg: Config, s: Sys, r: nat, o: Outcome, now: Time, id: Id)
    requires Wf(s) && r in s.runs && s.runs[r].phase.Working?
    ensures Tallied(s, WorkerEndsSpec(cfg, s, r, s.runs[r].running, o, now), id,
                    s.runs[r].running.id == id && o.Returned? && !TerminalIn(s, id))
  {
    var running := s.runs[r].running;
    AfterWorkerCounts(s.core, running, o, now, id);
    var (c, f) := AfterWorkerSpec(s.core, running, o, now);
    assert TerminalIn(s, running.id) <==> Terminal(s.core.store.jobs[running.id].status);
    if f.Finished? {
      EnterStagingTallies(cfg, s.(core := c), r, running, f.completed, id);
      SavedCounts(s, c, EnterStaging(cfg, s.(core := c), r, running, f.completed), id, running.id == id);
    } else {
      StagingRunsShrink(s.runs, Forget(s.runs, r), id);
    }
  }

  lemma SavedCounts(s: Sys, c: Core, s': Sys, id: Id, completes: bool)
    requires Completions(c, id) == Completions(s.core, id) + if completes then 1 else 0
    requires s'.core == c && Count(s'.staged, IsId(id)) <= Count(s.staged, IsId(id)) + if completes then 1 else 0
    requires Recordings(s', id) <= Recordings(s.(core := c), id) + if completes then 1 else 0
    ensures Tallied(s, s', id, completes)
  {
  }

  lemma StagingEndsTallies(cfg: Config, s: Sys, r: nat, count: Option<int>, id: Id)
    requires Wf(s) && r in s.runs && s.runs[r].phase.Staging?
    ensures Tallied(s, StagingEndsSpec(cfg, s, r, s.runs[r].running, s.runs[r].phase.completed, count), id, false)
  {
    var completed := s.runs[r].phase.completed;
    var c := AfterStagingSpec(s.core, completed.id, count);
    EmitCounts(s.core, completed.id, PROGRESS, "Memory staging failed", id);
    EmitCounts(s.core, completed.id, MEMORY_STAGED, "Memory candidates staged", id);
    EnterRecordingTallies(cfg, s.(core := c), r, s.runs[r].running, completed, id);
  }

  /** `b` differs from `a` by no staging, no recording and no additional staging run. */
  ghost predicate NothingEntered(a: Sys, b: Sys) {
    && b.staged == a.staged && b.recorded == a.recorded
    && (forall k :: k in b.runs && b.runs[k].phase.Staging? ==> k in a.runs && a.runs[k] == b.runs[k])
  }

  /** No other resumption adds a staging run, stages or records. */
  lemma QuietRuns(cfg: Config, s: Sys, r: nat, op: RunOp)
    requires Wf(s)
    requires r in s.runs ==> !(s.runs[r].phase.Working? && op.WorkerEnds?)
                             && !(s.runs[r].phase.Staging? && op.StagingEnds?)
    ensures NothingEntered(s, RunSpec(cfg, s, r, op))
  {
    if op.TaskCallback? || r !in s.runs {
    } else if s.runs[r].phase.Working? {
      assert RunSpec(cfg, s, r, op) == s;
    } else if !op.Dropped? && !op.RecordingEnds? {
      assert (op.TaskBegins? && s.runs[r].phase.Scheduled?) || RunSpec(cfg, s, r, op) == s;
    }
  }

  lemma QuietTallies(cfg: Config, s: Sys, r: nat, op: RunOp, id: Id)
    requires Wf(s)
    requires r in s.runs ==> !(s.runs[r].phase.Working? && op.WorkerEnds?)
                             && !(s.runs[r].phase.Staging? && op.StagingEnds?)
    ensures Tallied(s, RunSpec(cfg, s, r, op), id, false)
  {
    QuietRuns(cfg, s, r, op);
    StagingRunsShrink(s.runs, RunSpec(cfg, s, r, op).runs, id);
    QuietCounts(cfg, s, r, op, id);
  }

  lemma QuietCounts(cfg: Config, s: Sys, r: nat, op: RunOp, id: Id)
    requires Wf(s)
    requires r in s.runs ==> !(s.runs[r].phase.Working? && op.WorkerEnds?)
                             && !(s.runs[r].phase.Staging? && op.StagingEnds?)
    ensures Completions(RunSpec(cfg, s, r, op).core, id) == Completions(s.core, id)
  {
    if r in s.runs && s.runs[r].phase.Recording? && op.RecordingEnds? {
      EmitCounts(s.core, s.runs[r].phase.completed.id, PROGRESS, "Budget usage recording failed", id);
      EmitCounts(s.core, s.runs[r].phase.completed.id, PROGRESS, "Budget usage recorded", id);
    } else {
      QuietLog(cfg, s, r, op);
    }
  }

  lemma RunTallies(cfg: Config, s: Sys, r: nat, op: RunOp, id: Id)
    requires Wf(s)
    ensures Tallied(s, RunSpec(cfg, s, r, op), id, Completing(s, OfRun(r, op), id))
  {
    if r in s.runs && s.runs[r].phase.Working? && op.WorkerEnds? {
      WorkerEndsTallies(cfg, s, r, op.outcome, op.now, id);
    } else if r in s.runs && s.runs[r].phase.Staging? && op.StagingEnds? {
      StagingEndsTallies(cfg, s, r, op.count, id);
    } else {
      QuietTallies(cfg, s, r, op, id);
    }
  }

  lemma CreateCounts(cfg: Config, s: Sys, job: Job, preflight: Option<string>, id: Id)
    requires Wf(s)
    ensures Completions(CreateCallSpec(cfg, s, job, preflight).core, id) == Completions(s.core, id)
  {
    if job.id !in s.core.store.jobs {
      CommitCounts(s.core, job, CREATED, "Created job", id);
    }
  }

  lemma CancelCallsCount(s: Sys, target: Id, reason: string, k: nat, now: Time, id: Id)
    requires Wf(s)
    ensures Completions(CancelCallSpec(s, target, reason, now).core, id) == Completions(s.core, id)
    ensures Completions(CancelResumesSpec(s, k, now).core, id) == Completions(s.core, id)
  {
    if target in s.core.store.jobs {
      CancelCounts(s.core, s.core.store.jobs[target], reason, now, id);
    }
    if k in s.cancels {
      CancelCounts(s.core, s.cancels[k].job, s.cancels[k].reason, now, id);
    }
  }

  lemma StartEntersNothing(s: Sys, id: Id, now: Time)
    ensures NothingEntered(s, StartCallSpec(s, id, now))
  {
  }

  lemma StartBackgroundEntersNothing(s: Sys, id: Id, now: Time)
    ensures NothingEntered(s, StartBackgroundCallSpec(s, id, now))
  {
  }

  /** Starting, canceling and the other calls neither stage nor record. */
  lemma CallKeepsStaging(cfg: Config, s: Sys, op: Op)
    requires Wf(s) && !op.OfRun?
    ensures NothingEntered(s, ApplyCall(cfg, s, op))
  {
    match op
    case Start(id, now) => StartEntersNothing(s, id, now);
    case StartBackground(id, now) => StartBackgroundEntersNothing(s, id, now);
    case Direct(_) =>
    case Create(_, _, _, _, _) =>
    case Cancel(_, _, _) =>
    case CancelResumes(_, _) =>
    case CancelDropped(_) =>
    case Restart =>
    case Torn(_) =>
    case RecoveryTorn(_, _, _, _) =>
  }

  lemma CallTallies(cfg: Config, s: Sys, op: Op, id: Id)
    requires Wf(s)
    ensures Tallied(s, ApplyCall(cfg, s, op), id, Completing(s, op, id))
  {
    if op.OfRun? {
      RunTallies(cfg, s, op.run, op.resume, id);
    } else {
      CallKeepsStaging(cfg, s, op);
      StagingRunsShrink(s.runs, ApplyCall(cfg, s, op).runs, id);
      CallCounts(cfg, s, op, id);
    }
  }

  /** Death inside an operation emits, stages and records nothing for it. */
  lemma StepTallies(cfg: Config, s: Sys, op: Op, id: Id)
    requires Wf(s)
    ensures Tallied(s, Apply(cfg, s, op), id, Completing(s, op, id))
  {
    match op
    case Torn(cut) => StagingRunsShrink(s.runs, map[], id);
    case RecoveryTorn(text, now, saves, announced) =>
      StagingRunsShrink(s.runs, map[], id);
      TornRecoveryCounts(s.core, text, now, saves, announced, id);
    case _ => CallTallies(cfg, s, op, id);
  }

  lemma TornRecoveryCounts(c: Core, text: string, now: Time, saves: nat, announced: bool, id: Id)
    requires ValidStore(c.store)
    ensures Completions(TornRecovery(c, text, now, saves, announced), id) == Completions(c, id)
  {
    var jobs := Listed(c.store, ACTIVE_STATUSES);
    if saves < |jobs| {
      RecoverCounts(c, jobs[..saves + 1], text, now, id);
      RecoverCounts(c, jobs[..saves], text, now, id);
    }
  }

  lemma CallCounts(cfg: Config, s: Sys, op: Op, id: Id)
    requires Wf(s) && !op.OfRun?
    ensures Completions(ApplyCall(cfg, s, op).core, id) == Completions(s.core, id)
  {
    match op
    case Direct(call) => DirectCounts(s.core, call, id);
    case Create(j, origin, status, preflight, now) =>
      CreateCounts(cfg, s, NewJob(j, origin, status, now), preflight, id);
    case Start(j, now) => StartCounts(s.core, j, s.nextRun, s.runs.Keys, now, id);
    case StartBackground(j, now) => StartCounts(s.core, j, s.nextRun, s.runs.Keys, now, id);
    case Cancel(j, reason, now) => CancelCallsCount(s, j, reason, 0, now, id);
    case CancelResumes(k, now) => CancelCallsCount(s, 0, "", k, now, id);
    case CancelDropped(k) =>
    case Restart =>
    case Torn(_) =>
    case RecoveryTorn(_, _, _, _) =>
  }

  /* ---- whole runs ---- */

  ghost predicate AtMost(s: Sys, id: Id, bound: nat) {
    && Completions(s.core, id) <= bound
    && Count(s.staged, IsId(id)) <= Completions(s.core, id)
    && Recordings(s, id) <= Completions(s.core, id)
  }

  lemma CompletingEnds(cfg: Config, s: Sys, op: Op, id: Id)
    requires Wf(s) && Completing(s, op, id)
    ensures TerminalIn(Apply(cfg, s, op), id)
  {
    var running := s.runs[op.run].running;
    var (c, f) := AfterWorkerSpec(s.core, running, op.resume.outcome, op.resume.now);
    EnterKeepsCore(cfg, s.(core := c), op.run, running, f.completed);
  }

  /** The counts a job has used up in one state: one less while it can still complete. */
  lemma {:induction false} EffectsBounded(cfg: Config, ops: seq<Op>, id: Id)
    ensures var s := Reached(cfg, ops);
            AtMost(s, id, Revivals(cfg, ops, id) + if TerminalIn(s, id) then 1 else 0)
  {
    if ops == [] {
      assert StagingRuns(INIT.runs, id) == {};
    } else {
      var front, op := ops[..|ops| - 1], ops[|ops| - 1];
      var s := Reached(cfg, front);
      EffectsBounded(cfg, front, id);
      StepTallies(cfg, s, op, id);
      if Completing(s, op, id) {
        CompletingEnds(cfg, s, op, id);
      } else if TerminalIn(s, id) {
        LeavesTerminalOnlyByEnqueue(cfg, s, op, id);
      }
    }
  }

  /** Every run completes a job, stages its candidates and records its usage at most once,
      plus once for every time the run enqueues the finished job again. */
  lemma AtMostOnceEffects(cfg: Config, ops: seq<Op>, id: Id)
    ensures var s := Reached(cfg, ops);
            var bound := 1 + Revivals(cfg, ops, id);
            && Completions(s.core, id) <= bound
            && Count(s.staged, IsId(id)) <= bound
            && Count(s.recorded, IsId(id)) <= bound
  {
    EffectsBounded(cfg, ops, id);
  }
}
