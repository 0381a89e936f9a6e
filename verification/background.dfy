/** Background tasks: the map that is to keep a job from being started twice, and the
    done-callbacks that clear it. */
module Background {
  import opened Common
  import opened Jobs
  import opened JobStore
  import opened Runtime
  import opened Protocol
  import opened Saves
  import opened Safety

  /** The background runs of the job that are not done. */
  function LiveRuns(s: Sys, id: Id): set<nat> { set r | r in s.callbacks && s.callbacks[r] == id && r in s.runs }

  /** The task map knows every live background run of the job, so there is at most one, and
      `start_background` starts no other beside it. */
  ghost predicate Tracked(s: Sys, id: Id) {
    forall r :: r in LiveRuns(s, id) ==> id in s.core.background && s.core.background[id] == r
  }

  lemma TrackedIsSingle(s: Sys, id: Id)
    requires Tracked(s, id)
    ensures |LiveRuns(s, id)| <= 1 && (LiveRuns(s, id) != {} ==> LiveTask(s, id))
  {
    if r :| r in LiveRuns(s, id) {
      assert LiveRuns(s, id) == {r};
    }
  }

  /** The done-callback of an older run of the job fires while a newer one lives: it removes the
      entry of its job, whose it may be. */
  predicate Untracks(s: Sys, op: Op, id: Id) {
    match op
    case OfRun(r, TaskCallback) =>
      r in s.callbacks && s.callbacks[r] == id && r !in s.runs && LiveRuns(s, id) != {}
    case _ => false
  }

  /** Run numbers are given once. */
  ghost predicate Numbered(s: Sys) { forall r :: r in s.callbacks ==> r < s.nextRun }

  /** What an operation leaves alone that neither starts a background run nor calls back. */
  ghost predicate Undisturbed(s: Sys, s': Sys) {
    && s'.core.background == s.core.background && s'.callbacks == s.callbacks && s'.nextRun >= s.nextRun
    && (forall r :: r in s'.runs ==> r in s.runs || r == s.nextRun)
  }

  lemma EndDisturbsNothing(cfg: Config, s: Sys, r: nat, o: Outcome, now: Time)
    requires Wf(s) && r in s.runs && s.runs[r].phase.Working?
    ensures var s' := RunSpec(cfg, s, r, WorkerEnds(o, now));
            s'.core.background == s.core.background && s'.callbacks == s.callbacks
  {
    var running := s.runs[r].running;
    RunIsWorkerEnds(cfg, s, r, o, now);
    var (c, f) := AfterWorkerSpec(s.core, running, o, now);
    if f.Finished? {
      EnterDisturbsNothing(cfg, s.(core := c), r, running, f.completed);
    }
  }

  lemma EnterDisturbsNothing(cfg: Config, s: Sys, r: nat, running: Job, completed: Job)
    ensures var s' := EnterStaging(cfg, s, r, running, completed); s'.core == s.core && s'.callbacks == s.callbacks
  {
  }

  lemma OtherwiseCoreStays(cfg: Config, s: Sys, r: nat, op: RunOp)
    requires Wf(s) && !op.TaskCallback?
    requires r in s.runs ==> !(op.WorkerEnds? && s.runs[r].phase.Working?)
                             && !(op.StagingEnds? && s.runs[r].phase.Staging?)
    ensures var s' := RunSpec(cfg, s, r, op);
            s'.core.background == s.core.background && s'.callbacks == s.callbacks
  {
  }

  lemma MapStays(cfg: Config, s: Sys, r: nat, op: RunOp)
    requires Wf(s) && !op.TaskCallback?
    ensures var s' := RunSpec(cfg, s, r, op);
            s'.core.background == s.core.background && s'.callbacks == s.callbacks
  {
    if op.WorkerEnds? && r in s.runs && s.runs[r].phase.Working? {
      EndDisturbsNothing(cfg, s, r, op.outcome, op.now);
    } else if op.StagingEnds? && r in s.runs && s.runs[r].phase.Staging? {
      assert RunSpec(cfg, s, r, op)
          == StagingEndsSpec(cfg, s, r, s.runs[r].running, s.runs[r].phase.completed, op.count);
    } else {
      OtherwiseCoreStays(cfg, s, r, op);
    }
  }

  lemma ResumptionDisturbsNothing(cfg: Config, s: Sys, r: nat, op: RunOp)
    requires Wf(s) && !op.TaskCallback?
    ensures Undisturbed(s, RunSpec(cfg, s, r, op))
  {
    RunStep(cfg, s, r, op);
    MapStays(cfg, s, r, op);
  }

  lemma DirectDisturbsNothing(c: Core, call: DirectOp)
    requires ValidStore(c.store)
    ensures DirectSpec(c, call).background == c.background
  {
    if call.Recover? {
      RecoverEffect(c, call.text, call.now);
    }
  }

  lemma StartDisturbsNothing(s: Sys, j: Id, now: Time)
    ensures Undisturbed(s, StartCallSpec(s, j, now))
  {
  }

  lemma CancelDisturbsNothing(s: Sys, j: Id, reason: string, now: Time)
    ensures Undisturbed(s, CancelCallSpec(s, j, reason, now))
  {
  }

  lemma CreateDisturbsNothing(cfg: Config, s: Sys, job: Job, preflight: Option<string>)
    requires Wf(s)
    ensures Undisturbed(s, CreateCallSpec(cfg, s, job, preflight))
  {
  }

  lemma CallDisturbsNothing(cfg: Config, s: Sys, op: Op)
    requires Wf(s) && !op.OfRun? && !op.StartBackground? && !op.Restart?
    ensures Undisturbed(s, ApplyCall(cfg, s, op))
  {
    match op
    case Direct(call) => DirectDisturbsNothing(s.core, call);
    case Start(j, now) => StartDisturbsNothing(s, j, now);
    case Cancel(j, reason, now) => CancelDisturbsNothing(s, j, reason, now);
    case Create(j, origin, status, preflight, now) =>
      CreateDisturbsNothing(cfg, s, NewJob(j, origin, status, now), preflight);
    case CancelResumes(_, _) =>
    case CancelDropped(_) =>
    case Torn(_) =>
    case RecoveryTorn(_, _, _, _) =>
  }

  lemma StaysTracked(s: Sys, s': Sys, id: Id)
    requires Wf(s) && Numbered(s) && Undisturbed(s, s')
    ensures Numbered(s') && (Tracked(s, id) ==> Tracked(s', id))
  {
    forall r | r in LiveRuns(s', id)
      ensures r in LiveRuns(s, id)
    {
    }
  }

  /** A background run starts only beside none that the map knows of. */
  lemma BackgroundStart(s: Sys, j: Id, now: Time)
    requires Wf(s)
    ensures var s', n := StartBackgroundCallSpec(s, j, now), s.nextRun;
            if Startable(s.core.store, j) && !LiveTask(s, j) then
              && s'.runs == s.runs[n := Run(WithStatus(s.core.store.jobs[j], Running, now), Scheduled)]
              && s'.callbacks == s.callbacks[n := j] && s'.core.background == s.core.background[j := n]
              && s'.nextRun == n + 1
            else Undisturbed(s, s')
  {
  }

  lemma BackgroundStartTracks(s: Sys, j: Id, now: Time, id: Id)
    requires Wf(s) && Numbered(s)
    ensures var s' := StartBackgroundCallSpec(s, j, now); Numbered(s') && (Tracked(s, id) ==> Tracked(s', id))
  {
    BackgroundStart(s, j, now);
    var s' := StartBackgroundCallSpec(s, j, now);
    if Startable(s.core.store, j) && !LiveTask(s, j) {
      forall r | r in LiveRuns(s', id) && Tracked(s, id)
        ensures id in s'.core.background && s'.core.background[id] == r
      {
        assert r == s.nextRun || r in LiveRuns(s, id);
      }
    } else {
      StaysTracked(s, s', id);
    }
  }

  lemma CallbackTracks(s: Sys, r: nat, id: Id)
    requires Wf(s) && Numbered(s)
    ensures Numbered(CallbackSpec(s, r))
    ensures Tracked(s, id) ==> (Tracked(CallbackSpec(s, r), id) <==> !Untracks(s, OfRun(r, TaskCallback), id))
  {
    var s' := CallbackSpec(s, r);
    assert LiveRuns(s', id) == LiveRuns(s, id);
    if Untracks(s, OfRun(r, TaskCallback), id) {
      var live :| live in LiveRuns(s, id);
      assert live in LiveRuns(s', id);
    }
  }

  /** One operation loses track of a live background run if and only if it is such a callback. */
  lemma UntrackedIff(cfg: Config, s: Sys, op: Op, id: Id)
    requires Wf(s) && Numbered(s)
    ensures Numbered(Apply(cfg, s, op))
    ensures Tracked(s, id) ==> (Tracked(Apply(cfg, s, op), id) <==> !Untracks(s, op, id))
  {
    match op
    case OfRun(r, resume) =>
      if resume.TaskCallback? {
        CallbackTracks(s, r, id);
      } else {
        ResumptionDisturbsNothing(cfg, s, r, resume);
        StaysTracked(s, Apply(cfg, s, op), id);
      }
    case StartBackground(j, now) => BackgroundStartTracks(s, j, now, id);
    case Restart =>
    case Torn(_) =>
    case RecoveryTorn(_, _, _, _) =>
    case _ =>
      CallDisturbsNothing(cfg, s, op);
      StaysTracked(s, Apply(cfg, s, op), id);
  }

  /** The map knows every live background run of a job in every state of a run, so that there is
      never more than one, if and only if no callback of an older run fires while a newer one
      lives. */
  lemma {:induction false} TrackedIff(cfg: Config, ops: seq<Op>, id: Id)
    ensures Numbered(Reached(cfg, ops))
    ensures Always(cfg, INIT, ops, (s: Sys) => Tracked(s, id))
       <==> Never(cfg, INIT, ops, (s: Sys, op: Op) => Untracks(s, op, id))
  {
    if ops != [] {
      var front, op := ops[..|ops| - 1], ops[|ops| - 1];
      TrackedIff(cfg, front, id);
      UntrackedIff(cfg, Reached(cfg, front), op, id);
      var p := (s: Sys) => Tracked(s, id);
      assert Always(cfg, INIT, front, p) ==> p(Reached(cfg, front));
      assert Reached(cfg, ops) == Apply(cfg, Reached(cfg, front), op);
    }
  }

  /* ---- two live runs ---- */

  /** A background run dropped before its first step, and started again. */
  lemma DroppedRun(cfg: Config, s: Sys, r: nat)
    requires Wf(s) && r in s.runs && s.runs[r].phase.Scheduled?
    ensures Apply(cfg, s, OfRun(r, Dropped)) == s.(runs := Forget(s.runs, r))
  {
  }

  lemma StartsAgain(cfg: Config, s: Sys, j: Id, now: Time)
    requires Wf(s) && Startable(s.core.store, j) && !LiveTask(s, j)
    ensures var s', n := Apply(cfg, s, StartBackground(j, now)), s.nextRun;
            && s'.runs == s.runs[n := Run(WithStatus(s.core.store.jobs[j], Running, now), Scheduled)]
            && s'.callbacks == s.callbacks[n := j] && s'.core.background == s.core.background[j := n]
            && s'.nextRun == n + 1 && Startable(s'.core.store, j)
  {
    BackgroundStart(s, j, now);
    StoreAfter(cfg, s, StartBackground(j, now));
  }

  /** A run of the job is gone, its callback is still to come, and another run lives. */
  ghost predicate CallbackDue(s: Sys, gone: nat, live: nat, j: Id) {
    && gone !in s.runs && gone in s.callbacks && s.callbacks[gone] == j
    && live in LiveRuns(s, j) && Startable(s.core.store, j)
  }

  /** A job started in the background, its task dropped before its first step, and started again. */
  lemma DroppedAndRestarted(cfg: Config, s: Sys, j: Id, now: Time)
    requires Wf(s) && Startable(s.core.store, j) && !LiveTask(s, j)
    ensures var n, s1 := s.nextRun, Apply(cfg, s, StartBackground(j, now));
            && Wf(s1)
            && (var s2 := Apply(cfg, s1, OfRun(n, Dropped));
                && Wf(s2) && CallbackDue(Apply(cfg, s2, StartBackground(j, now)), n, n + 1, j))
  {
    var n, again := s.nextRun, StartBackground(j, now);
    StartsAgain(cfg, s, j, now);
    StepKeepsWf(cfg, s, again);
    var s1 := Apply(cfg, s, again);
    DroppedRun(cfg, s1, n);
    StepKeepsWf(cfg, s1, OfRun(n, Dropped));
    StartsAgain(cfg, Apply(cfg, s1, OfRun(n, Dropped)), j, now);
  }

  /** Once the callback fires, a second run starts beside the live one. */
  lemma StartsBeside(cfg: Config, s: Sys, gone: nat, live: nat, j: Id, now: Time)
    requires Wf(s) && CallbackDue(s, gone, live, j)
    ensures var called := Apply(cfg, s, OfRun(gone, TaskCallback));
            && Wf(called)
            && (var s' := Apply(cfg, called, StartBackground(j, now));
                |LiveRuns(s', j)| > 1)
  {
    StepKeepsWf(cfg, s, OfRun(gone, TaskCallback));
    assert Apply(cfg, s, OfRun(gone, TaskCallback)) == CallbackSpec(s, gone);
    StartsAgain(cfg, CallbackSpec(s, gone), j, now);
    var s' := Apply(cfg, CallbackSpec(s, gone), StartBackground(j, now));
    assert LiveRuns(s', j) == {live, s.nextRun} + LiveRuns(s', j) && live != s.nextRun;
    SubsetSize({live, s.nextRun}, LiveRuns(s', j));
  }
}
