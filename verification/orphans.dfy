/** RUNNING jobs that nothing runs: a job is driven while a run of it waits for its worker, or
    for its first step. */
module Orphans {
  import opened Common
  import opened Jobs
  import opened JobStore
  import opened Runtime
  import opened Protocol
  import opened Saves

  predicate Drives(run: Run, id: Id) { run.running.id == id && (run.phase.Scheduled? || run.phase.Working?) }

  function Drivers(runs: map<nat, Run>, id: Id): set<nat> { set r | r in runs && Drives(runs[r], id) }

  predicate RunningIn(store: Store, id: Id) { id in store.jobs && store.jobs[id].status.Running? }

  /** The job is stored RUNNING, and no run will ever finish it. */
  predicate Orphaned(s: Sys, id: Id) { RunningIn(s.core.store, id) && Drivers(s.runs, id) == {} }

  /* ---- the stored status ---- */

  /** The operation is not a recovery and saves the job RUNNING. */
  predicate SavesRunning(cfg: Config, s: Sys, op: Op, id: Id)
    requires Wf(s)
  {
    match op
    case Start(j, _) => j == id && Startable(s.core.store, id)
    case StartBackground(j, _) => j == id && Startable(s.core.store, id) && !LiveTask(s, id)
    case Create(j, origin, status, preflight, now) => j == id && status.Running? && Creates(cfg, s, op)
    case _ => false
  }

  /** `create_job` gets to the save: a fresh id, no unfinished job of the fingerprint, the budget
      and the chat's limits allow it. */
  predicate Creates(cfg: Config, s: Sys, op: Op)
    requires Wf(s) && op.Create?
  {
    var found := Find(s.core.store, op.origin.fingerprint);
    && op.newId !in s.core.store.jobs
    && (found.None? || Terminal(found.value.status))
    && op.preflight.None?
    && LimitReached(cfg, s.core.store, NewJob(op.newId, op.origin, op.status, op.at)).None?
  }

  /** The operation is not a recovery and saves a RUNNING job in another status. */
  predicate MovesOff(s: Sys, op: Op, id: Id) {
    match op
    case Direct(Enqueue(j, _)) => j == id
    case Direct(Complete(j, _, _)) => j == id
    case Direct(Fail(j, _, _)) => j == id
    case Cancel(j, _, _) => j == id && id in s.core.store.jobs && !AwaitsWorker(s.core, id)
    case CancelResumes(k, _) => k in s.cancels && s.cancels[k].job.id == id
    case OfRun(r, WorkerEnds(_, _)) => r in s.runs && s.runs[r].phase.Working? && s.runs[r].running.id == id
    case _ => false
  }

  lemma SavedStatus(cfg: Config, s: Sys, op: Op, id: Id)
    requires Wf(s) && !op.Torn?
    ensures var record := SavedRecord(cfg, s, op);
            var saves := record.Some? && record.value.id == id;
            && (saves && record.value.status.Running? && !RunningIn(s.core.store, id) ==> SavesRunning(cfg, s, op, id))
            && (SavesRunning(cfg, s, op, id) ==> saves && record.value.status.Running?)
            && (RunningIn(s.core.store, id) ==> (saves && !record.value.status.Running? <==> MovesOff(s, op, id)))
  {
  }

  /** Whether the job is RUNNING after the operation, or after its save when it is cut short. */
  predicate RunningAfter(cfg: Config, s: Sys, op: Op, id: Id)
    requires Wf(s)
  {
    if Recovers(op) then RunningIn(s.core.store, id) && !Recovered(s, op, id)
    else SavesRunning(cfg, s, CallOf(op), id) || (RunningIn(s.core.store, id) && !MovesOff(s, CallOf(op), id))
  }

  lemma RunningAfterIs(cfg: Config, s: Sys, op: Op, id: Id)
    requires Wf(s)
    ensures RunningIn(Apply(cfg, s, op).core.store, id) <==> RunningAfter(cfg, s, op, id)
  {
    if Recovers(op) {
      StoreAfterRecovery(cfg, s, op);
    } else {
      StoreAfter(cfg, s, op);
      if !CallOf(op).Torn? {
        SavedStatus(cfg, s, CallOf(op), id);
      }
    }
  }

  /* ---- the runs ---- */

  /** Resuming the run takes it from the job: its worker is unknown when it begins, it is
      dropped before it begins, or its worker ends. */
  predicate DriverEnds(s: Sys, r: nat, op: RunOp, id: Id) {
    && r in s.runs && Drives(s.runs[r], id)
    && match op
       case TaskBegins => s.runs[r].phase.Scheduled? && s.runs[r].running.origin.worker !in s.core.workers
       case Dropped => s.runs[r].phase.Scheduled?
       case WorkerEnds(_, _) => s.runs[r].phase.Working?
       case _ => false
  }

  /** Only run `r` differs, and it drives the job afterwards unless it ended. */
  lemma OneRunDiffers(a: map<nat, Run>, b: map<nat, Run>, r: nat, id: Id, ended: bool)
    requires b == a || b == Forget(a, r) || (r in b && b == a[r := b[r]])
    requires r in b && Drives(b[r], id) <==> r in a && Drives(a[r], id) && !ended
    ensures Drivers(b, id) == Drivers(a, id) - if ended then {r} else {}
  {
    assert forall k :: k != r ==> (k in b <==> k in a) && (k in b ==> b[k] == a[k]);
  }

  lemma EndedRunDrivesNothing(cfg: Config, s: Sys, r: nat, o: Outcome, now: Time, id: Id)
    requires Wf(s) && r in s.runs && s.runs[r].phase.Working?
    ensures Drivers(RunSpec(cfg, s, r, WorkerEnds(o, now)).runs, id) == Drivers(s.runs, id) - {r}
  {
    RunIsWorkerEnds(cfg, s, r, o, now);
    OneRunDiffers(s.runs, WorkerEndsSpec(cfg, s, r, s.runs[r].running, o, now).runs, r, id, true);
  }

  lemma StagingDrives(cfg: Config, s: Sys, r: nat, count: Option<int>, id: Id)
    requires Wf(s)
    ensures Drivers(RunSpec(cfg, s, r, StagingEnds(count)).runs, id) == Drivers(s.runs, id)
  {
    if r in s.runs && s.runs[r].phase.Staging? {
      var completed := s.runs[r].phase.completed;
      var s' := StagingEndsSpec(cfg, s, r, s.runs[r].running, completed, count);
      assert RunSpec(cfg, s, r, StagingEnds(count)) == s';
      OneRunDiffers(s.runs, s'.runs, r, id, false);
    } else {
      assert RunSpec(cfg, s, r, StagingEnds(count)) == s;
    }
  }

  lemma BeginDrives(cfg: Config, s: Sys, r: nat, id: Id)
    requires Wf(s)
    ensures Drivers(RunSpec(cfg, s, r, TaskBegins).runs, id)
         == Drivers(s.runs, id) - if DriverEnds(s, r, TaskBegins, id) then {r} else {}
  {
    if r in s.runs && s.runs[r].phase.Scheduled? {
      var s' := TaskBeginsSpec(s, r, s.runs[r].running);
      assert RunSpec(cfg, s, r, TaskBegins) == s';
      OneRunDiffers(s.runs, s'.runs, r, id, DriverEnds(s, r, TaskBegins, id));
    } else {
      assert RunSpec(cfg, s, r, TaskBegins) == s;
    }
  }

  lemma QuietRunDrives(cfg: Config, s: Sys, r: nat, op: RunOp, id: Id)
    requires Wf(s) && !(op.WorkerEnds? && r in s.runs && s.runs[r].phase.Working?)
    ensures Drivers(RunSpec(cfg, s, r, op).runs, id)
         == Drivers(s.runs, id) - if DriverEnds(s, r, op, id) then {r} else {}
  {
    match op
    case TaskBegins => BeginDrives(cfg, s, r, id);
    case StagingEnds(count) => StagingDrives(cfg, s, r, count, id);
    case WorkerEnds(_, _) => assert RunSpec(cfg, s, r, op) == s;
    case TaskCallback => assert RunSpec(cfg, s, r, op).runs == s.runs;
    case Dropped => OneRunDiffers(s.runs, RunSpec(cfg, s, r, op).runs, r, id, DriverEnds(s, r, op, id));
    case RecordingEnds(_) => OneRunDiffers(s.runs, RunSpec(cfg, s, r, op).runs, r, id, false);
  }

  lemma RunDrives(cfg: Config, s: Sys, r: nat, op: RunOp, id: Id)
    requires Wf(s)
    ensures Drivers(RunSpec(cfg, s, r, op).runs, id)
         == Drivers(s.runs, id) - if DriverEnds(s, r, op, id) then {r} else {}
  {
    if op.WorkerEnds? && r in s.runs && s.runs[r].phase.Working? {
      EndedRunDrivesNothing(cfg, s, r, op.outcome, op.now, id);
    } else {
      QuietRunDrives(cfg, s, r, op, id);
    }
  }

  lemma NewRunDrives(runs: map<nat, Run>, next: nat, run: Run, id: Id)
    requires next !in runs
    ensures Drivers(runs[next := run], id) == Drivers(runs, id) + if Drives(run, id) then {next} else {}
  {
  }

  /** The operation starts a run that drives the job. */
  predicate GainsDriver(s: Sys, op: Op, id: Id) {
    match op
    case Start(j, _) =>
      j == id && Startable(s.core.store, id) && s.core.store.jobs[id].origin.worker in s.core.workers
    case StartBackground(j, _) => j == id && Startable(s.core.store, id) && !LiveTask(s, id)
    case _ => false
  }

  lemma StartsDrive(cfg: Config, s: Sys, op: Op, id: Id)
    requires Wf(s) && (op.Start? || op.StartBackground?)
    ensures Drivers(ApplyCall(cfg, s, op).runs, id)
         == Drivers(s.runs, id) + if GainsDriver(s, op, id) then {s.nextRun} else {}
  {
    var j, now := op.job, op.at;
    assert s.nextRun !in s.runs;
    if Startable(s.core.store, j) {
      var running := WithStatus(s.core.store.jobs[j], Running, now);
      NewRunDrives(s.runs, s.nextRun, Run(running, Working), id);
      NewRunDrives(s.runs, s.nextRun, Run(running, Scheduled), id);
    }
  }

  lemma OtherCallsKeepRuns(cfg: Config, s: Sys, op: Op)
    requires Wf(s) && !op.OfRun? && !op.Start? && !op.StartBackground? && !op.Restart?
    ensures ApplyCall(cfg, s, op).runs == s.runs
  {
    if op.Cancel? {
      CancelKeepsRuns(s, op.target, op.reason, op.at);
    }
  }

  lemma CancelKeepsRuns(s: Sys, id: Id, reason: string, now: Time)
    ensures CancelCallSpec(s, id, reason, now).runs == s.runs
  {
  }

  /* ---- one operation ---- */

  /** The operation leaves the job RUNNING with no run to finish it: the process dies, a start
      finds no registered worker, a scheduled run does not find it or is dropped and was the
      last one, or the job is created RUNNING. */
  predicate Orphans(cfg: Config, s: Sys, op: Op, id: Id)
    requires Wf(s)
  {
    match op
    case Restart => RunningIn(s.core.store, id)
    case Torn(_) => RunningAfter(cfg, s, op, id)
    case RecoveryTorn(_, _, _, _) => RunningAfter(cfg, s, op, id)
    case Start(j, _) =>
      && j == id && Startable(s.core.store, id) && s.core.store.jobs[id].origin.worker !in s.core.workers
      && Drivers(s.runs, id) == {}
    case OfRun(r, resume) =>
      && (resume.TaskBegins? || resume.Dropped?) && DriverEnds(s, r, resume, id)
      && RunningIn(s.core.store, id) && Drivers(s.runs, id) == {r}
    case Create(_, _, _, _, _) => SavesRunning(cfg, s, op, id)
    case _ => false
  }

  lemma NewJobHasNoDriver(s: Sys, id: Id)
    requires Wf(s) && id !in s.core.store.jobs
    ensures Drivers(s.runs, id) == {}
  {
    forall r | r in s.runs
      ensures s.runs[r].running.id != id
    {
      assert RunHeld(s.core.store, s.runs[r]);
    }
  }

  lemma RunOrphans(cfg: Config, s: Sys, r: nat, resume: RunOp, id: Id)
    requires Wf(s) && !Orphaned(s, id)
    ensures Orphaned(Apply(cfg, s, OfRun(r, resume)), id) <==> Orphans(cfg, s, OfRun(r, resume), id)
  {
    RunningAfterIs(cfg, s, OfRun(r, resume), id);
    RunDrives(cfg, s, r, resume, id);
  }

  lemma StartOrphans(cfg: Config, s: Sys, op: Op, id: Id)
    requires Wf(s) && !Orphaned(s, id) && (op.Start? || op.StartBackground?)
    ensures Orphaned(Apply(cfg, s, op), id) <==> Orphans(cfg, s, op, id)
  {
    RunningAfterIs(cfg, s, op, id);
    StartsDrive(cfg, s, op, id);
  }

  /** One operation orphans a job that is not if and only if it is one of these. */
  lemma OrphanedIff(cfg: Config, s: Sys, op: Op, id: Id)
    requires Wf(s) && !Orphaned(s, id)
    ensures Orphaned(Apply(cfg, s, op), id) <==> Orphans(cfg, s, op, id)
  {
    RunningAfterIs(cfg, s, op, id);
    if op.OfRun? {
      RunOrphans(cfg, s, op.run, op.resume, id);
    } else if op.Start? || op.StartBackground? {
      StartOrphans(cfg, s, op, id);
    } else if op.Create? && id !in s.core.store.jobs {
      NewJobHasNoDriver(s, id);
    } else if !op.Torn? && !op.RecoveryTorn? && !op.Restart? {
      OtherCallsKeepRuns(cfg, s, op);
    }
  }

  /** In every state of a run each RUNNING job has a run that will finish it, if and only if no
      operation of the run is one of these for any job. */
  lemma DrivenIff(cfg: Config, ops: seq<Op>)
    ensures Always(cfg, INIT, ops, (s: Sys) => forall id :: !Orphaned(s, id))
       <==> Never(cfg, INIT, ops, (s: Sys, op: Op) => Wf(s) && exists id :: Orphans(cfg, s, op, id))
  {
    var p := (s: Sys) => forall id :: !Orphaned(s, id);
    var q := (s: Sys, op: Op) => Wf(s) && exists id :: Orphans(cfg, s, op, id);
    forall s, op | Wf(s) && p(s)
      ensures p(Apply(cfg, s, op)) <==> !q(s, op)
    {
      forall id
        ensures Orphaned(Apply(cfg, s, op), id) <==> Orphans(cfg, s, op, id)
      {
        OrphanedIff(cfg, s, op, id);
      }
    }
    AlwaysIffNever(cfg, INIT, ops, p, q);
  }
}
