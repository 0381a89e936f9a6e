/** What follows a completion: every job whose run ends with a result that counts is handed to the
    memory sink if it has candidates, and to the usage recorder, and no other job ever is. */
module Completion {
  import opened Common
  import opened Jobs
  import opened JobStore
  import opened Runtime
  import opened Protocol
  import opened Safety
  import opened AuditLog
  import opened Effects
  import opened Orphans

  /** The operation by which run `r` returns a capsule to a job that is not finished. */
  ghost predicate Returns(s: Sys, op: Op, id: Id) {
    && op.OfRun? && op.run in s.runs && s.runs[op.run].phase == Working && s.runs[op.run].running.id == id
    && op.resume.WorkerEnds? && op.resume.outcome.Returned?
    && id in s.core.store.jobs && s.core.store.jobs[id].status in OPEN_STATUSES
  }

  /** There is a sink, and the worker returned something for it. */
  predicate Stages(cfg: Config, op: Op) {
    && cfg.memorySink && op.OfRun? && op.resume.WorkerEnds? && op.resume.outcome.Returned?
    && op.resume.outcome.capsule.memoryCandidates != []
  }

  /** The operation by which a staging run of the job ends, well or with an exception. */
  ghost predicate EndsStaging(s: Sys, op: Op, id: Id) {
    && op.OfRun? && op.resume.StagingEnds?
    && op.run in s.runs && s.runs[op.run].phase.Staging? && s.runs[op.run].running.id == id
  }

  /** Two tables of runs that differ in run `r` at most. */
  ghost predicate OffRun(a: map<nat, Run>, b: map<nat, Run>, r: nat) {
    forall k :: k != r ==> (k in b <==> k in a) && (k in a ==> b[k] == a[k])
  }

  /* ---- one operation ---- */

  lemma ReturnHandsOver(cfg: Config, s: Sys, r: nat, running: Job, completed: Job)
    requires r in s.runs && completed.result.Some?
    ensures var s' := EnterStaging(cfg, s, r, running, completed);
            var stages := cfg.memorySink && completed.result.value.memoryCandidates != [];
            && s'.staged == s.staged + (if stages then [completed.id] else [])
            && s'.recorded == s.recorded + (if !stages && cfg.budgetRecorder then [completed.id] else [])
            && OffRun(s.runs, s'.runs, r)
            && (if stages then r in s'.runs && s'.runs[r] == Run(running, Staging(completed))
                else if cfg.budgetRecorder then r in s'.runs && s'.runs[r] == Run(running, Recording(completed))
                else r !in s'.runs)
  {
    assert s.staged + [] == s.staged && s.recorded + [] == s.recorded;
  }

  /** When a run returns a capsule to an unfinished job, the job is staged exactly if there is a sink
      and the capsule has candidates, and otherwise recorded at once exactly if there is a
      recorder; the run goes on with just that, on the record it has stored, or is over. */
  lemma ReturnMeans(cfg: Config, s: Sys, op: Op, id: Id)
    requires Wf(s) && Returns(s, op, id)
    ensures var s' := Apply(cfg, s, op);
            var stages := Stages(cfg, op);
            && s'.staged == s.staged + (if stages then [id] else [])
            && s'.recorded == s.recorded + (if !stages && cfg.budgetRecorder then [id] else [])
            && OffRun(s.runs, s'.runs, op.run)
            && id in s'.core.store.jobs
            && (if stages then op.run in s'.runs && s'.runs[op.run].phase == Staging(s'.core.store.jobs[id])
                else if cfg.budgetRecorder
                then op.run in s'.runs && s'.runs[op.run].phase == Recording(s'.core.store.jobs[id])
                else op.run !in s'.runs)
  {
    var running := s.runs[op.run].running;
    RunIsWorkerEnds(cfg, s, op.run, op.resume.outcome, op.resume.now);
    AfterWorkerAnswers(s.core, running, op.resume.outcome, op.resume.now);
    var (c, f) := AfterWorkerSpec(s.core, running, op.resume.outcome, op.resume.now);
    ReturnHandsOver(cfg, s.(core := c), op.run, running, f.completed);
    EnterKeepsCore(cfg, s.(core := c), op.run, running, f.completed);
  }

  /** When a staging run ends, well or with an exception, its job is recorded exactly if there is a
      recorder. */
  lemma StagingEndMeans(cfg: Config, s: Sys, op: Op, id: Id)
    requires Wf(s) && EndsStaging(s, op, id)
    ensures var s' := Apply(cfg, s, op);
            && s'.staged == s.staged && s'.recorded == s.recorded + (if cfg.budgetRecorder then [id] else [])
            && OffRun(s.runs, s'.runs, op.run)
            && (if cfg.budgetRecorder
                then op.run in s'.runs && s'.runs[op.run].phase == Recording(s.runs[op.run].phase.completed)
                else op.run !in s'.runs)
  {
    var completed := s.runs[op.run].phase.completed;
    assert RunHeld(s.core.store, s.runs[op.run]);
    assert Apply(cfg, s, op) == StagingEndsSpec(cfg, s, op.run, s.runs[op.run].running, completed, op.resume.count);
    assert s.recorded + [] == s.recorded;
  }

  /** No other operation stages or records anything, or adds a staging run. */
  lemma NothingElseMeans(cfg: Config, s: Sys, op: Op)
    requires Wf(s) && forall id :: !Returns(s, op, id) && !EndsStaging(s, op, id)
    ensures NothingEntered(s, Apply(cfg, s, op))
  {
    match op
    case OfRun(r, resume) =>
      assert r in s.runs ==> !EndsStaging(s, op, s.runs[r].running.id);
      if r in s.runs && s.runs[r].phase.Working? && resume.WorkerEnds? {
        OtherEnd(cfg, s, r, resume.outcome, resume.now);
      } else {
        QuietRuns(cfg, s, r, resume);
      }
    case Torn(_) =>
    case RecoveryTorn(_, _, _, _) =>
    case _ => CallKeepsStaging(cfg, s, op);
  }

  lemma OtherEnd(cfg: Config, s: Sys, r: nat, o: Outcome, now: Time)
    requires Wf(s) && r in s.runs && s.runs[r].phase.Working?
    requires !Returns(s, OfRun(r, WorkerEnds(o, now)), s.runs[r].running.id)
    ensures NothingEntered(s, Apply(cfg, s, OfRun(r, WorkerEnds(o, now))))
  {
    RunIsWorkerEnds(cfg, s, r, o, now);
    assert RunHeld(s.core.store, s.runs[r]);
    AfterWorkerAnswers(s.core, s.runs[r].running, o, now);
  }

  /* ---- whole runs ---- */

  /** How often a run of the job returned something that was to be staged. */
  ghost function ToStage(cfg: Config, ops: seq<Op>, id: Id): nat {
    if ops == [] then 0
    else
      var front, op := ops[..|ops| - 1], ops[|ops| - 1];
      ToStage(cfg, front, id) + if Returns(Reached(cfg, front), op, id) && Stages(cfg, op) then 1 else 0
  }

  /** How often a run of the job returned a result that counts. */
  ghost function Returned(cfg: Config, ops: seq<Op>, id: Id): nat {
    if ops == [] then 0
    else
      var front := ops[..|ops| - 1];
      Returned(cfg, front, id) + if Returns(Reached(cfg, front), ops[|ops| - 1], id) then 1 else 0
  }

  /** The staging runs of the job that the operation ends without recording: a dropped one, or all of
      them when the process dies. */
  ghost function LostBy(cfg: Config, s: Sys, op: Op, id: Id): nat
    requires Wf(s)
  {
    if EndsStaging(s, op, id) then 0 else |StagingRuns(s.runs, id) - StagingRuns(Apply(cfg, s, op).runs, id)|
  }

  ghost function Lost(cfg: Config, ops: seq<Op>, id: Id): nat {
    if ops == [] then 0
    else
      var front := ops[..|ops| - 1];
      Lost(cfg, front, id) + LostBy(cfg, Reached(cfg, front), ops[|ops| - 1], id)
  }

  lemma CountOne(s: seq<Id>, x: Option<Id>, id: Id)
    ensures Count(s + (if x.Some? then [x.value] else []), IsId(id))
         == Count(s, IsId(id)) + if x == Some(id) then 1 else 0
  {
    if x.Some? {
      CountAppend(s, x.value, IsId(id));
    } else {
      assert s + [] == s;
    }
  }

  /** What one operation adds to a job's account. */
  ghost predicate Accounted(cfg: Config, s: Sys, op: Op, id: Id)
    requires Wf(s)
  {
    var s' := Apply(cfg, s, op);
    var counts := Returns(s, op, id);
    && Count(s'.staged, IsId(id)) == Count(s.staged, IsId(id)) + (if counts && Stages(cfg, op) then 1 else 0)
    && (cfg.budgetRecorder ==>
          Count(s'.recorded, IsId(id)) + |StagingRuns(s'.runs, id)| + LostBy(cfg, s, op, id)
          == Count(s.recorded, IsId(id)) + |StagingRuns(s.runs, id)| + (if counts then 1 else 0))
    && (!cfg.budgetRecorder ==> s'.recorded == s.recorded)
  }

  lemma OneRunStages(a: map<nat, Run>, b: map<nat, Run>, r: nat, id: Id)
    requires OffRun(a, b, r)
    ensures |StagingRuns(b, id)|
         == |StagingRuns(a, id)| - (if r in StagingRuns(a, id) then 1 else 0) + if r in StagingRuns(b, id) then 1 else 0
    ensures r !in StagingRuns(a, id) || r in StagingRuns(b, id) ==> StagingRuns(a, id) - StagingRuns(b, id) == {}
  {
    forall k | k != r
      ensures k in StagingRuns(b, id) <==> k in StagingRuns(a, id)
    {
    }
    OneElementDiffers(StagingRuns(a, id), StagingRuns(b, id), r);
  }

  lemma OneElementDiffers(a: set<nat>, b: set<nat>, r: nat)
    requires forall k :: k != r ==> (k in b <==> k in a)
    ensures |b| == |a| - (if r in a then 1 else 0) + if r in b then 1 else 0
    ensures r !in a || r in b ==> a - b == {}
  {
    var rest := a - {r};
    assert a == rest + if r in a then {r} else {};
    assert b == rest + if r in b then {r} else {};
  }

  /** What is handed over changes the counts by the jobs handed over and the run that does it. */
  lemma HandOverCounts(s: Sys, s': Sys, r: nat, staged: Option<Id>, recorded: Option<Id>, id: Id)
    requires s'.staged == s.staged + (if staged.Some? then [staged.value] else [])
    requires s'.recorded == s.recorded + (if recorded.Some? then [recorded.value] else [])
    requires OffRun(s.runs, s'.runs, r)
    ensures Count(s'.staged, IsId(id)) == Count(s.staged, IsId(id)) + if staged == Some(id) then 1 else 0
    ensures Count(s'.recorded, IsId(id)) == Count(s.recorded, IsId(id)) + if recorded == Some(id) then 1 else 0
    ensures |StagingRuns(s'.runs, id)|
         == |StagingRuns(s.runs, id)| - (if r in StagingRuns(s.runs, id) then 1 else 0)
            + if r in StagingRuns(s'.runs, id) then 1 else 0
    ensures r !in StagingRuns(s.runs, id) || r in StagingRuns(s'.runs, id) ==>
              StagingRuns(s.runs, id) - StagingRuns(s'.runs, id) == {}
  {
    CountOne(s.staged, staged, id);
    CountOne(s.recorded, recorded, id);
    OneRunStages(s.runs, s'.runs, r, id);
  }

  lemma ReturnAccounts(cfg: Config, s: Sys, op: Op, other: Id, id: Id)
    requires Wf(s) && Returns(s, op, other)
    ensures Accounted(cfg, s, op, id)
  {
    ReturnMeans(cfg, s, op, other);
    var s', stages := Apply(cfg, s, op), Stages(cfg, op);
    ReturnKeepsId(cfg, s, op, other);
    HandOverCounts(s, s', op.run, if stages then Some(other) else None,
                   if !stages && cfg.budgetRecorder then Some(other) else None, id);
  }

  lemma ReturnKeepsId(cfg: Config, s: Sys, op: Op, id: Id)
    requires Wf(s) && Returns(s, op, id)
    ensures var s' := Apply(cfg, s, op);
            && (op.run in s'.runs ==> s'.runs[op.run].running.id == id)
            && (!cfg.budgetRecorder ==> s'.recorded == s.recorded)
  {
    var running := s.runs[op.run].running;
    RunIsWorkerEnds(cfg, s, op.run, op.resume.outcome, op.resume.now);
    AfterWorkerAnswers(s.core, running, op.resume.outcome, op.resume.now);
  }

  lemma StagingEndAccounts(cfg: Config, s: Sys, op: Op, other: Id, id: Id)
    requires Wf(s) && EndsStaging(s, op, other)
    ensures Accounted(cfg, s, op, id)
  {
    StagingEndMeans(cfg, s, op, other);
    StagingEndCounts(s, Apply(cfg, s, op), op.run, other, cfg.budgetRecorder, id);
    assert forall x :: EndsStaging(s, op, x) <==> x == other;
  }

  lemma StagingEndCounts(s: Sys, s': Sys, r: nat, other: Id, records: bool, id: Id)
    requires r in s.runs && s.runs[r].phase.Staging? && s.runs[r].running.id == other
    requires s'.staged == s.staged && s'.recorded == s.recorded + (if records then [other] else [])
    requires OffRun(s.runs, s'.runs, r) && (r in s'.runs ==> !s'.runs[r].phase.Staging?)
    ensures s'.staged == s.staged && (!records ==> s'.recorded == s.recorded)
    ensures Count(s'.recorded, IsId(id)) == Count(s.recorded, IsId(id)) + if records && other == id then 1 else 0
    ensures |StagingRuns(s'.runs, id)| == |StagingRuns(s.runs, id)| - if other == id then 1 else 0
    ensures other != id ==> StagingRuns(s.runs, id) - StagingRuns(s'.runs, id) == {}
  {
    assert s.recorded + [] == s.recorded && s.staged + [] == s.staged;
    HandOverCounts(s, s', r, None, if records then Some(other) else None, id);
    assert other != id ==> r !in StagingRuns(s.runs, id);
  }

  lemma NothingElseAccounts(cfg: Config, s: Sys, op: Op, id: Id)
    requires Wf(s) && forall other :: !Returns(s, op, other) && !EndsStaging(s, op, other)
    ensures Accounted(cfg, s, op, id)
  {
    NothingElseMeans(cfg, s, op);
    NothingEnteredCounts(s, Apply(cfg, s, op), id);
  }

  lemma NothingEnteredCounts(s: Sys, s': Sys, id: Id)
    requires NothingEntered(s, s')
    ensures |StagingRuns(s'.runs, id)| + |StagingRuns(s.runs, id) - StagingRuns(s'.runs, id)|
         == |StagingRuns(s.runs, id)|
  {
    var before, after := StagingRuns(s.runs, id), StagingRuns(s'.runs, id);
    assert after <= before;
    assert before == after + (before - after);
  }

  lemma StepAccounts(cfg: Config, s: Sys, op: Op, id: Id)
    requires Wf(s)
    ensures Accounted(cfg, s, op, id)
  {
    if other :| Returns(s, op, other) {
      ReturnAccounts(cfg, s, op, other, id);
    } else if other :| EndsStaging(s, op, other) {
      StagingEndAccounts(cfg, s, op, other, id);
    } else {
      NothingElseAccounts(cfg, s, op, id);
    }
  }

  /** In every run, a job is staged exactly as often as a run of it returned something to stage. */
  lemma {:induction false} StagedExactly(cfg: Config, ops: seq<Op>, id: Id)
    ensures Count(Reached(cfg, ops).staged, IsId(id)) == ToStage(cfg, ops, id)
  {
    if ops != [] {
      StagedExactly(cfg, ops[..|ops| - 1], id);
      StepAccounts(cfg, Reached(cfg, ops[..|ops| - 1]), ops[|ops| - 1], id);
    }
  }

  /** With a recorder, every result that counts is recorded, about to be recorded by a run that is
      staging, or lost with a staging run; without one nothing is recorded. */
  lemma {:induction false} RecordedExactly(cfg: Config, ops: seq<Op>, id: Id)
    ensures var s := Reached(cfg, ops);
            if cfg.budgetRecorder
            then Count(s.recorded, IsId(id)) + |StagingRuns(s.runs, id)| + Lost(cfg, ops, id) == Returned(cfg, ops, id)
            else s.recorded == []
  {
    if ops == [] {
      assert StagingRuns(INIT.runs, id) == {};
    } else {
      RecordedExactly(cfg, ops[..|ops| - 1], id);
      StepAccounts(cfg, Reached(cfg, ops[..|ops| - 1]), ops[|ops| - 1], id);
    }
  }

  lemma RunChangesItself(cfg: Config, s: Sys, r: nat, resume: RunOp)
    requires Wf(s)
    ensures OffRun(s.runs, RunSpec(cfg, s, r, resume).runs, r)
  {
    if r in s.runs && s.runs[r].phase.Working? && resume.WorkerEnds? {
      RunIsWorkerEnds(cfg, s, r, resume.outcome, resume.now);
      EndChangesItself(cfg, s, r, s.runs[r].running, resume.outcome, resume.now);
    } else if r in s.runs && s.runs[r].phase.Staging? && resume.StagingEnds? {
      assert RunSpec(cfg, s, r, resume)
          == StagingEndsSpec(cfg, s, r, s.runs[r].running, s.runs[r].phase.completed, resume.count);
    } else {
      OtherwiseChangesItself(cfg, s, r, resume);
    }
  }

  lemma EndChangesItself(cfg: Config, s: Sys, r: nat, running: Job, o: Outcome, now: Time)
    requires running.id in s.core.store.jobs && r in s.runs
    ensures OffRun(s.runs, WorkerEndsSpec(cfg, s, r, running, o, now).runs, r)
  {
  }

  lemma OtherwiseChangesItself(cfg: Config, s: Sys, r: nat, resume: RunOp)
    requires Wf(s)
    requires r in s.runs ==> !(s.runs[r].phase.Working? && resume.WorkerEnds?)
                             && !(s.runs[r].phase.Staging? && resume.StagingEnds?)
    ensures var b := RunSpec(cfg, s, r, resume).runs;
            OffRun(s.runs, b, r) && (b == s.runs || resume == Dropped || !(r in s.runs && s.runs[r].phase.Staging?))
  {
    if resume.TaskCallback? || r !in s.runs {
      assert RunSpec(cfg, s, r, resume).runs == s.runs;
    } else if s.runs[r].phase.Working? || s.runs[r].phase.Staging? {
      assert RunSpec(cfg, s, r, resume).runs == s.runs
          || (resume == Dropped && RunSpec(cfg, s, r, resume).runs == Forget(s.runs, r));
    } else {
      BeginsOrRecords(cfg, s, r, resume);
    }
  }

  lemma BeginsOrRecords(cfg: Config, s: Sys, r: nat, resume: RunOp)
    requires Wf(s) && r in s.runs && (s.runs[r].phase.Scheduled? || s.runs[r].phase.Recording?)
    ensures OffRun(s.runs, RunSpec(cfg, s, r, resume).runs, r)
  {
    var running := s.runs[r].running;
    if resume.Dropped? || (resume.RecordingEnds? && s.runs[r].phase.Recording?) {
      assert RunSpec(cfg, s, r, resume).runs == Forget(s.runs, r);
    } else if resume.TaskBegins? && s.runs[r].phase.Scheduled? {
      assert RunSpec(cfg, s, r, resume) == TaskBeginsSpec(s, r, running);
    } else {
      assert RunSpec(cfg, s, r, resume).runs == s.runs;
    }
  }

  lemma CallsKeepRuns(cfg: Config, s: Sys, op: Op)
    requires Wf(s) && !op.OfRun? && !op.Restart? && !op.Torn? && !op.RecoveryTorn?
    ensures forall r :: r in s.runs ==> r in Apply(cfg, s, op).runs && Apply(cfg, s, op).runs[r] == s.runs[r]
  {
    if op.Start? {
      assert Apply(cfg, s, op) == StartCallSpec(s, op.job, op.at);
    } else if op.StartBackground? {
      assert Apply(cfg, s, op) == StartBackgroundCallSpec(s, op.job, op.at);
    } else {
      OtherCallsKeepRuns(cfg, s, op);
    }
  }

  /** Only a dropped staging run and a death of the process lose a recording. */
  lemma OnlyDropsLose(cfg: Config, s: Sys, op: Op, id: Id)
    requires Wf(s) && LostBy(cfg, s, op, id) > 0
    ensures op.Restart? || op.Torn? || op.RecoveryTorn? || (op.OfRun? && op.resume == Dropped)
  {
    var before, after := StagingRuns(s.runs, id), StagingRuns(Apply(cfg, s, op).runs, id);
    var r :| r in before - after;
    if op.OfRun? {
      LeavesByDrop(cfg, s, op.run, op.resume, r, id);
    } else if !op.Restart? && !op.Torn? && !op.RecoveryTorn? {
      CallsKeepRuns(cfg, s, op);
    }
  }

  lemma LeavesByDrop(cfg: Config, s: Sys, k: nat, resume: RunOp, r: nat, id: Id)
    requires Wf(s) && r in StagingRuns(s.runs, id) && r !in StagingRuns(RunSpec(cfg, s, k, resume).runs, id)
    requires !EndsStaging(s, OfRun(k, resume), id)
    ensures resume == Dropped
  {
    RunChangesItself(cfg, s, k, resume);
    assert k == r;
    OtherwiseChangesItself(cfg, s, k, resume);
  }

  /** In a run without such, once no staging run of the job is left, every result that counts was
      recorded. */
  lemma {:induction false} NothingLost(cfg: Config, ops: seq<Op>, id: Id)
    requires forall op :: op in ops ==>
               !op.Restart? && !op.Torn? && !op.RecoveryTorn? && !(op.OfRun? && op.resume == Dropped)
    ensures Lost(cfg, ops, id) == 0
  {
    if ops != [] {
      var front, op := ops[..|ops| - 1], ops[|ops| - 1];
      assert op in ops && forall x :: x in front ==> x in ops;
      NothingLost(cfg, front, id);
      if LostBy(cfg, Reached(cfg, front), op, id) > 0 {
        OnlyDropsLose(cfg, Reached(cfg, front), op, id);
      }
    }
  }

  lemma CompletedIsRecorded(cfg: Config, ops: seq<Op>, id: Id)
    requires cfg.budgetRecorder && StagingRuns(Reached(cfg, ops).runs, id) == {}
    requires forall op :: op in ops ==>
               !op.Restart? && !op.Torn? && !op.RecoveryTorn? && !(op.OfRun? && op.resume == Dropped)
    ensures Count(Reached(cfg, ops).recorded, IsId(id)) == Returned(cfg, ops, id)
  {
    RecordedExactly(cfg, ops, id);
    NothingLost(cfg, ops, id);
  }

  /** The COMPLETED events of a job are those results. */
  lemma {:induction false} CompletionsExactly(cfg: Config, ops: seq<Op>, id: Id)
    ensures Completions(Reached(cfg, ops).core, id) == Returned(cfg, ops, id)
  {
    if ops != [] {
      var front, op := ops[..|ops| - 1], ops[|ops| - 1];
      CompletionsExactly(cfg, front, id);
      StepTallies(cfg, Reached(cfg, front), op, id);
      CompletingReturns(Reached(cfg, front), op, id);
    }
  }

  lemma CompletingReturns(s: Sys, op: Op, id: Id)
    requires Wf(s)
    ensures Completing(s, op, id) <==> Returns(s, op, id)
  {
    if op.OfRun? && op.run in s.runs {
      assert RunHeld(s.core.store, s.runs[op.run]);
    }
  }
}
