/** Concrete runs, for a job of any origin, in which the runtime does not keep what one might
    expect of it. The exact conditions are in Safety, AuditLog, Attachments, Orphans and Background. */
module Counterexamples {
  import opened Common
  import opened Jobs
  import opened JobStore
  import opened Runtime
  import opened Protocol
  import opened Saves
  import Safety
  import AuditLog
  import Attachments
  import Orphans
  import Background

  /** One active and one queued job for each chat. */
  const CFG := Config(false, false, 1, 1)

  function FirstCreate(o: Origin): Op { Create(0, o, Queued, None, 0) }

  function First(o: Origin): Job { NewJob(0, o, Queued, 0) }

  lemma RunSnoc(cfg: Config, s: Sys, ops: seq<Op>, op: Op)
    requires Wf(s)
    ensures RunFrom(cfg, s, ops + [op]) == Apply(cfg, RunFrom(cfg, s, ops), op)
  {
    assert (ops + [op])[..|ops|] == ops;
  }

  lemma Extend(ops: seq<Op>, s: Sys, op: Op, s': Sys)
    requires Reached(CFG, ops) == s && Wf(s) && Apply(CFG, s, op) == s'
    ensures Reached(CFG, ops + [op]) == s'
  {
    RunSnoc(CFG, INIT, ops, op);
  }

  /** The state after the first job was created. */
  function One(o: Origin): Sys {
    INIT.(core := Commit(INIT.core, First(o), CREATED, "Created job"), born := map[0 := Queued])
  }

  lemma FirstJob(o: Origin)
    ensures Reached(CFG, [FirstCreate(o)]) == One(o) && Wf(One(o))
    ensures One(o).core.store.jobs == map[0 := First(o)]
  {
    RunSnoc(CFG, INIT, [], FirstCreate(o));
    assert [] + [FirstCreate(o)] == [FirstCreate(o)];
    FindPrefersUnfinished(EMPTY_STORE, o.fingerprint);
    assert Find(EMPTY_STORE, o.fingerprint).None?;
    assert Occupying(EMPTY_STORE, QUEUE_STATUSES, o.chat) == {};
    assert LimitReached(CFG, EMPTY_STORE, First(o)).None?;
  }

  lemma AfterFirst(o: Origin, op: Op)
    ensures Wf(One(o)) && Reached(CFG, [FirstCreate(o), op]) == Apply(CFG, One(o), op)
  {
    FirstJob(o);
    RunSnoc(CFG, INIT, [FirstCreate(o)], op);
    assert [FirstCreate(o)] + [op] == [FirstCreate(o), op];
  }

  function ToRestart(o: Origin): seq<Op> {
    [FirstCreate(o)] + [StartBackground(0, 1)] + [OfRun(0, Dropped)] + [StartBackground(0, 1)]
  }

  lemma Restarted(o: Origin)
    ensures Background.CallbackDue(Reached(CFG, ToRestart(o)), 0, 1, 0)
  {
    FirstJob(o);
    Background.DroppedAndRestarted(CFG, One(o), 0, 1);
    RunSnoc(CFG, INIT, [FirstCreate(o)], StartBackground(0, 1));
    RunSnoc(CFG, INIT, [FirstCreate(o)] + [StartBackground(0, 1)], OfRun(0, Dropped));
    RunSnoc(CFG, INIT, [FirstCreate(o)] + [StartBackground(0, 1)] + [OfRun(0, Dropped)], StartBackground(0, 1));
  }

  /** A callback that comes late lets a second background run of a job start beside a live one. */
  lemma TwoBackgroundRuns(o: Origin)
    ensures var ops := ToRestart(o) + [OfRun(0, TaskCallback)] + [StartBackground(0, 2)];
            |Background.LiveRuns(Reached(CFG, ops), 0)| > 1
  {
    Restarted(o);
    Beside(ToRestart(o));
  }

  lemma Beside(ops: seq<Op>)
    requires Background.CallbackDue(Reached(CFG, ops), 0, 1, 0)
    ensures |Background.LiveRuns(Reached(CFG, ops + [OfRun(0, TaskCallback)] + [StartBackground(0, 2)]), 0)| > 1
  {
    Background.StartsBeside(CFG, Reached(CFG, ops), 0, 1, 0, 2);
    RunSnoc(CFG, INIT, ops, OfRun(0, TaskCallback));
    RunSnoc(CFG, INIT, ops + [OfRun(0, TaskCallback)], StartBackground(0, 2));
  }

  /** A job whose worker is not registered stays RUNNING with nothing to finish it. */
  lemma UnknownWorkerOrphans(o: Origin)
    ensures Orphans.Orphaned(Reached(CFG, [FirstCreate(o), Start(0, 1)]), 0)
  {
    FirstJob(o);
    AfterFirst(o, Start(0, 1));
    assert One(o).core.workers == {} && One(o).runs == map[];
    assert Orphans.Drivers(map[], 0) == {};
    assert Startable(One(o).core.store, 0);
    Orphans.OrphanedIff(CFG, One(o), Start(0, 1), 0);
  }

  lemma FirstAgrees(o: Origin)
    ensures AuditLog.AgreesOn(One(o), 0)
  {
    AuditLog.LastOfEmit(SaveJob(INIT.core, First(o)), 0, CREATED, "Created job", 0);
  }

  /** `fail` emits nothing, so the log still tells QUEUED of a failed job. */
  lemma FailIsUntold(o: Origin)
    ensures !AuditLog.AgreesOn(Reached(CFG, [FirstCreate(o), Direct(Fail(0, "", 1))]), 0)
  {
    FirstJob(o);
    FirstAgrees(o);
    AfterFirst(o, Direct(Fail(0, "", 1)));
    FailUntold(One(o), 0, "", 1);
  }

  lemma FailUntold(s: Sys, id: Id, reason: string, now: Time)
    requires Wf(s) && id in s.core.store.jobs && !s.core.store.jobs[id].status.Failed? && AuditLog.AgreesOn(s, id)
    ensures !AuditLog.AgreesOn(Apply(CFG, s, Direct(Fail(id, reason, now))), id)
  {
    AuditLog.StepAgreement(CFG, s, Direct(Fail(id, reason, now)), id);
  }

  /** A death between the save of a started job and its event leaves the log behind, too. */
  lemma TornStartIsUntold(o: Origin)
    ensures !AuditLog.AgreesOn(Reached(CFG, [FirstCreate(o), Torn(Start(0, 1))]), 0)
  {
    FirstJob(o);
    FirstAgrees(o);
    AfterFirst(o, Torn(Start(0, 1)));
    TornStartUntold(One(o), 0, 1);
  }

  lemma TornStartUntold(s: Sys, id: Id, now: Time)
    requires Wf(s) && Startable(s.core.store, id) && !s.core.store.jobs[id].status.Running? && AuditLog.AgreesOn(s, id)
    ensures !AuditLog.AgreesOn(Apply(CFG, s, Torn(Start(id, now))), id)
  {
    assert AuditLog.MovesUnheard(CFG, s, Torn(Start(id, now)), id);
    AuditLog.StepAgreement(CFG, s, Torn(Start(id, now)), id);
  }

  /** The state after that job failed. */
  function FailedOne(o: Origin): Sys { One(o).(core := SaveJob(One(o).core, WithStatus(First(o), Failed, 1))) }

  lemma FailedJob(o: Origin)
    ensures Wf(One(o)) && Apply(CFG, One(o), Direct(Fail(0, "", 1))) == FailedOne(o)
    ensures FailedOne(o).core.store.jobs == map[0 := WithStatus(First(o), Failed, 1)]
  {
    FirstJob(o);
    assert FailSpec(One(o).core, 0, "", 1) == FailedOne(o).core;
  }

  function ToFailure(o: Origin): seq<Op> { [FirstCreate(o)] + [Direct(Fail(0, "", 1))] }

  lemma AfterFailure(o: Origin, op: Op)
    ensures Wf(FailedOne(o)) && FailedOne(o).core.store.jobs == map[0 := WithStatus(First(o), Failed, 1)]
    ensures Reached(CFG, ToFailure(o) + [op]) == Apply(CFG, FailedOne(o), op)
  {
    FirstJob(o);
    FailedJob(o);
    Extend([FirstCreate(o)], One(o), Direct(Fail(0, "", 1)), FailedOne(o));
    StepKeepsWf(CFG, One(o), Direct(Fail(0, "", 1)));
    Extend(ToFailure(o), FailedOne(o), op, Apply(CFG, FailedOne(o), op));
  }

  /** `enqueue` revives a failed job. */
  lemma FailedIsRevived(o: Origin)
    ensures !Safety.TerminalIn(Reached(CFG, ToFailure(o) + [Direct(Enqueue(0, 2))]), 0)
  {
    AfterFailure(o, Direct(Enqueue(0, 2)));
    Safety.LeavesTerminalOnlyByEnqueue(CFG, FailedOne(o), Direct(Enqueue(0, 2)), 0);
  }

  /** `complete` writes over the record of a failed job. */
  lemma FailedIsOverwritten(o: Origin, capsule: Capsule)
    ensures var jobs := Reached(CFG, ToFailure(o) + [Direct(Complete(0, capsule, 2))]).core.store.jobs;
            0 in jobs && jobs[0] != FailedOne(o).core.store.jobs[0]
  {
    AfterFailure(o, Direct(Complete(0, capsule, 2)));
    Safety.TerminalRecordKept(CFG, FailedOne(o), Direct(Complete(0, capsule, 2)), 0);
  }

  /* ---- two jobs of one chat ---- */

  /** A second job is created when the first is not queued and does not claim its fingerprint. */
  lemma SecondJob(s: Sys, first: Job, o: Origin, now: Time)
    requires Wf(s) && s.core.store.jobs == map[0 := first] && !first.status.Queued? && !first.status.AwaitingInput?
    requires Terminal(first.status) || first.origin.fingerprint != o.fingerprint
    ensures Apply(CFG, s, Create(1, o, Queued, None, now)).core.store.jobs
         == map[0 := first, 1 := NewJob(1, o, Queued, now)]
  {
    NothingClaims(s.core.store, first, NewJob(1, o, Queued, now));
    CreateSavesOne(CFG, s, NewJob(1, o, Queued, now), None);
  }

  lemma NothingClaims(store: Store, first: Job, second: Job)
    requires ValidStore(store) && store.jobs == map[0 := first] && !first.status.Queued? && !first.status.AwaitingInput?
    requires Terminal(first.status) || first.origin.fingerprint != second.origin.fingerprint
    requires second.status.Queued?
    ensures var found := Find(store, second.origin.fingerprint); found.None? || Terminal(found.value.status)
    ensures LimitReached(CFG, store, second).None?
  {
    FindPrefersUnfinished(store, second.origin.fingerprint);
    assert forall id :: Matches(store, second.origin.fingerprint, id) ==> id == 0 && Terminal(first.status);
    assert Occupying(store, QUEUE_STATUSES, second.origin.chat) == {};
  }

  lemma FirstStarted(o: Origin)
    ensures var s := Reached(CFG, [FirstCreate(o)] + [Start(0, 1)]);
            s.core.store.jobs == map[0 := WithStatus(First(o), Running, 1)]
  {
    FirstJob(o);
    Extend([FirstCreate(o)], One(o), Start(0, 1), Apply(CFG, One(o), Start(0, 1)));
    FirstRuns(o);
  }

  lemma FirstRuns(o: Origin)
    requires Wf(One(o)) && One(o).core.store.jobs == map[0 := First(o)]
    ensures Apply(CFG, One(o), Start(0, 1)).core.store.jobs == map[0 := WithStatus(First(o), Running, 1)]
  {
    StoreAfter(CFG, One(o), Start(0, 1));
  }

  lemma SecondJoins(s: Sys, first: Job, second: Job, op: Op, g: Safety.Group, chat: int)
    requires Wf(s) && s.core.store.jobs == map[0 := first, 1 := second]
    requires first.origin.chat == second.origin.chat == chat && Safety.LimitOf(CFG, g) == 1
    requires Safety.Joins(s, op, g, chat)
    requires first.status in Safety.StatusesOf(g) <==> second.status !in Safety.StatusesOf(g)
    ensures |Safety.Members(s.core.store, g, chat)| == 1
    ensures |Safety.Members(Apply(CFG, s, op).core.store, g, chat)| > 1
  {
    var only := if first.status in Safety.StatusesOf(g) then 0 else 1;
    assert Safety.Members(s.core.store, g, chat) == {only};
    Safety.LimitLostIff(CFG, s, op, g, chat);
  }

  lemma SecondStarts(s: Sys, first: Job, second: Job, chat: int)
    requires Wf(s) && s.core.store.jobs == map[0 := first, 1 := second]
    requires first.origin.chat == second.origin.chat == chat && first.status.Running? && second.status.Queued?
    ensures |Safety.Members(s.core.store, Safety.Busy, chat)| == 1
    ensures |Safety.Members(Apply(CFG, s, Start(1, 3)).core.store, Safety.Busy, chat)| > 1
  {
    SecondJoins(s, first, second, Start(1, 3), Safety.Busy, chat);
  }

  lemma FirstQueues(s: Sys, first: Job, second: Job, chat: int)
    requires Wf(s) && s.core.store.jobs == map[0 := first, 1 := second]
    requires first.origin.chat == second.origin.chat == chat && first.status.Failed? && second.status.Queued?
    ensures |Safety.Members(s.core.store, Safety.Waiting, chat)| == 1
    ensures |Safety.Members(Apply(CFG, s, Direct(Enqueue(0, 3))).core.store, Safety.Waiting, chat)| > 1
  {
    SecondJoins(s, first, second, Direct(Enqueue(0, 3)), Safety.Waiting, chat);
  }

  function ToSecond(o: Origin, other: Origin): seq<Op> {
    [FirstCreate(o)] + [Start(0, 1)] + [Create(1, other, Queued, None, 2)]
  }

  lemma SecondCreated(ops: seq<Op>, first: Job, other: Origin)
    requires Reached(CFG, ops).core.store.jobs == map[0 := first] && first.status.Running?
    requires first.origin.fingerprint != other.fingerprint
    ensures Reached(CFG, ops + [Create(1, other, Queued, None, 2)]).core.store.jobs
         == map[0 := first, 1 := NewJob(1, other, Queued, 2)]
  {
    RunSnoc(CFG, INIT, ops, Create(1, other, Queued, None, 2));
    SecondJob(Reached(CFG, ops), first, other, 2);
  }

  lemma StartSecond(ops: seq<Op>, first: Job, other: Origin)
    requires Reached(CFG, ops).core.store.jobs == map[0 := first] && first.status.Running?
    requires other.chat == first.origin.chat && other.fingerprint != first.origin.fingerprint
    ensures var ops' := ops + [Create(1, other, Queued, None, 2)];
            var before, after := Reached(CFG, ops'), Reached(CFG, ops' + [Start(1, 3)]);
            && |Safety.Members(before.core.store, Safety.Busy, other.chat)| == 1
            && |Safety.Members(after.core.store, Safety.Busy, other.chat)| > 1
  {
    var ops' := ops + [Create(1, other, Queued, None, 2)];
    SecondCreated(ops, first, other);
    RunSnoc(CFG, INIT, ops', Start(1, 3));
    SecondStarts(Reached(CFG, ops'), first, NewJob(1, other, Queued, 2), other.chat);
  }

  /** `start` takes a chat with one active job, its limit, to two. */
  lemma LimitExceeded(o: Origin, other: Origin)
    requires other.chat == o.chat && other.fingerprint != o.fingerprint
    ensures var before, after := Reached(CFG, ToSecond(o, other)), Reached(CFG, ToSecond(o, other) + [Start(1, 3)]);
            && |Safety.Members(before.core.store, Safety.Busy, o.chat)| == CFG.maxActive
            && |Safety.Members(after.core.store, Safety.Busy, o.chat)| > CFG.maxActive
  {
    FirstStarted(o);
    StartSecond([FirstCreate(o)] + [Start(0, 1)], WithStatus(First(o), Running, 1), other);
  }

  function ToTwin(o: Origin, other: Origin): seq<Op> { ToFailure(o) + [Create(1, other, Queued, None, 2)] }

  lemma TwinCreated(ops: seq<Op>, s: Sys, first: Job, other: Origin)
    requires Wf(s) && s.core.store.jobs == map[0 := first] && Terminal(first.status)
    requires Reached(CFG, ops + [Create(1, other, Queued, None, 2)]) == Apply(CFG, s, Create(1, other, Queued, None, 2))
    ensures Reached(CFG, ops + [Create(1, other, Queued, None, 2)]).core.store.jobs
         == map[0 := first, 1 := NewJob(1, other, Queued, 2)]
  {
    SecondJob(s, first, other, 2);
  }

  /** A failed job and a queued one. */
  lemma Twins(o: Origin, other: Origin)
    ensures var s := Reached(CFG, ToTwin(o, other));
            && s.core.store.jobs == map[0 := WithStatus(First(o), Failed, 1), 1 := NewJob(1, other, Queued, 2)]
            && Reached(CFG, ToTwin(o, other) + [Direct(Enqueue(0, 3))]) == Apply(CFG, s, Direct(Enqueue(0, 3)))
  {
    AfterFailure(o, Create(1, other, Queued, None, 2));
    TwinCreated(ToFailure(o), FailedOne(o), WithStatus(First(o), Failed, 1), other);
    RunSnoc(CFG, INIT, ToTwin(o, other), Direct(Enqueue(0, 3)));
  }

  /** `enqueue` takes a chat with one queued job, its limit, to two. */
  lemma QueueLimitExceeded(o: Origin, other: Origin)
    requires other.chat == o.chat
    ensures var before := Reached(CFG, ToTwin(o, other));
            var after := Reached(CFG, ToTwin(o, other) + [Direct(Enqueue(0, 3))]);
            && |Safety.Members(before.core.store, Safety.Waiting, o.chat)| == CFG.maxQueued
            && |Safety.Members(after.core.store, Safety.Waiting, o.chat)| > CFG.maxQueued
  {
    Twins(o, other);
    FirstQueues(Reached(CFG, ToTwin(o, other)), WithStatus(First(o), Failed, 1), NewJob(1, other, Queued, 2), o.chat);
  }

  lemma TwinRevived(s: Sys, first: Job, second: Job, now: Time)
    requires Wf(s) && s.core.store.jobs == map[0 := first, 1 := second]
    requires Terminal(first.status) && !Terminal(second.status)
    requires first.origin.fingerprint == second.origin.fingerprint
    ensures Safety.OnePerFingerprint(s.core.store)
    ensures !Safety.OnePerFingerprint(Apply(CFG, s, Direct(Enqueue(0, now))).core.store)
  {
    assert Safety.UnfinishedTwin(s.core.store, 0, 1);
    Safety.UniquenessLostIff(CFG, s, Direct(Enqueue(0, now)));
  }

  /** `enqueue` revives a failed job although an unfinished one has taken its fingerprint. */
  lemma FingerprintsClash(o: Origin)
    ensures Safety.OnePerFingerprint(Reached(CFG, ToTwin(o, o)).core.store)
    ensures !Safety.OnePerFingerprint(Reached(CFG, ToTwin(o, o) + [Direct(Enqueue(0, 3))]).core.store)
  {
    Twins(o, o);
    TwinRevived(Reached(CFG, ToTwin(o, o)), WithStatus(First(o), Failed, 1), NewJob(1, o, Queued, 2), 3);
  }

  /** The state while the worker of the first job runs. */
  function WorkingOne(o: Origin): Sys {
    var running := WithStatus(First(o), Running, 1);
    One(o).(
    core := Commit(One(o).core, running, STARTED, "Agent job started").(workers := {o.worker}),
    runs := map[0 := Run(running, Working)],
    nextRun := 1)
  }

  function ToWork(o: Origin): seq<Op> { [FirstCreate(o)] + [Direct(Register(o.worker))] + [Start(0, 1)] }

  function ReadyOne(o: Origin): Sys { One(o).(core := One(o).core.(workers := {o.worker})) }

  lemma ReadyJob(o: Origin)
    ensures Wf(One(o)) && Apply(CFG, One(o), Direct(Register(o.worker))) == ReadyOne(o)
    ensures Wf(ReadyOne(o)) && ReadyOne(o).core.store.jobs == map[0 := First(o)]
  {
    FirstJob(o);
    assert {} + {o.worker} == {o.worker};
  }

  lemma StartedJob(o: Origin)
    requires Wf(ReadyOne(o)) && ReadyOne(o).core.store.jobs == map[0 := First(o)]
    ensures Apply(CFG, ReadyOne(o), Start(0, 1)) == WorkingOne(o)
    ensures WorkingOne(o).core.store.jobs == map[0 := WithStatus(First(o), Running, 1)]
  {
    var (c, outcome) := StartSpec(ReadyOne(o).core, 0, 1);
    assert outcome == Launched(WithStatus(First(o), Running, 1));
    assert c == WorkingOne(o).core;
  }

  lemma WorkingJob(o: Origin)
    ensures Reached(CFG, ToWork(o)) == WorkingOne(o) && Wf(WorkingOne(o))
    ensures WorkingOne(o).core.store.jobs == map[0 := WithStatus(First(o), Running, 1)]
  {
    var register := Direct(Register(o.worker));
    FirstJob(o);
    ReadyJob(o);
    StartedJob(o);
    Extend([FirstCreate(o)], One(o), register, ReadyOne(o));
    Extend([FirstCreate(o)] + [register], ReadyOne(o), Start(0, 1), WorkingOne(o));
  }

  /** What a worker's job gets attached between its start and its return is not in the record
      afterwards. */
  lemma LostOnReturn(ops: seq<Op>, s: Sys, text: string, capsule: Capsule)
    requires Reached(CFG, ops) == s && s.nextRun == 0
    requires Startable(s.core.store, 0) && s.core.store.jobs[0].origin.worker in s.core.workers
    ensures var x := Attachments.ListsOf(s.core.store.jobs[0]);
            var noted := ops + [Start(0, 1)] + [Direct(AttachFollowup(0, text))];
            && Attachments.Carried(Reached(CFG, noted), 0, x.(followups := x.followups + [text]))
            && (var jobs := Reached(CFG, noted + [OfRun(0, WorkerEnds(Returned(capsule), 2))]).core.store.jobs;
                0 in jobs && Attachments.ListsOf(jobs[0]) == x)
  {
    var noted := ops + [Start(0, 1)] + [Direct(AttachFollowup(0, text))];
    Attachments.AttachedAndReturned(CFG, s, 0, Attachments.Followup(text), capsule, 1, 2);
    RunSnoc(CFG, INIT, ops, Start(0, 1));
    RunSnoc(CFG, INIT, ops + [Start(0, 1)], Direct(AttachFollowup(0, text)));
    RunSnoc(CFG, INIT, noted, OfRun(0, WorkerEnds(Returned(capsule), 2)));
  }

  function ToReady(o: Origin): seq<Op> { [FirstCreate(o)] + [Direct(Register(o.worker))] }

  lemma Ready(o: Origin)
    ensures Reached(CFG, ToReady(o)) == ReadyOne(o) && ReadyOne(o).core.store.jobs == map[0 := First(o)]
  {
    FirstJob(o);
    ReadyJob(o);
    Extend([FirstCreate(o)], One(o), Direct(Register(o.worker)), ReadyOne(o));
  }

  /** A follow-up attached while the worker runs is gone when the worker returns. */
  lemma FollowupLostOnReturn(o: Origin, text: string, capsule: Capsule)
    ensures var noted := ToReady(o) + [Start(0, 1)] + [Direct(AttachFollowup(0, text))];
            && Attachments.Carried(Reached(CFG, noted), 0, Attachments.Lists([text], []))
            && (var jobs := Reached(CFG, noted + [OfRun(0, WorkerEnds(Returned(capsule), 2))]).core.store.jobs;
                0 in jobs && Attachments.ListsOf(jobs[0]) == Attachments.Lists([], []))
  {
    Ready(o);
    LostOnReturn(ToReady(o), ReadyOne(o), text, capsule);
    assert [] + [text] == [text];
  }

  lemma ReadyWithNote(o: Origin, text: string)
    ensures var s := Reached(CFG, ToReady(o) + [Direct(AttachFollowup(0, text))]);
            && Startable(s.core.store, 0) && s.core.store.jobs[0] == First(o).(followups := [text])
            && s.core.workers == {o.worker} && s.nextRun == 0
  {
    Ready(o);
    Extend(ToReady(o), ReadyOne(o), Direct(AttachFollowup(0, text)),
           Apply(CFG, ReadyOne(o), Direct(AttachFollowup(0, text))));
    NoteReady(o, text);
  }

  lemma NoteReady(o: Origin, text: string)
    requires Wf(ReadyOne(o)) && ReadyOne(o).core.store.jobs == map[0 := First(o)]
    ensures var s := Apply(CFG, ReadyOne(o), Direct(AttachFollowup(0, text)));
            && Startable(s.core.store, 0) && s.core.store.jobs[0] == First(o).(followups := [text])
            && s.core.workers == {o.worker} && s.nextRun == 0
  {
    StoreAfter(CFG, ReadyOne(o), Direct(AttachFollowup(0, text)));
    assert [] + [text] == [text];
  }

  /** So is one that repeats an earlier follow-up: of the two only the first remains. */
  lemma RepeatedFollowupLost(o: Origin, text: string, capsule: Capsule)
    ensures var ready := ToReady(o) + [Direct(AttachFollowup(0, text))];
            var noted := ready + [Start(0, 1)] + [Direct(AttachFollowup(0, text))];
            && Attachments.Carried(Reached(CFG, noted), 0, Attachments.Lists([text, text], []))
            && (var jobs := Reached(CFG, noted + [OfRun(0, WorkerEnds(Returned(capsule), 2))]).core.store.jobs;
                0 in jobs && Attachments.ListsOf(jobs[0]) == Attachments.Lists([text], []))
  {
    var ready := ToReady(o) + [Direct(AttachFollowup(0, text))];
    ReadyWithNote(o, text);
    LostOnReturn(ready, Reached(CFG, ready), text, capsule);
    assert [text] + [text] == [text, text];
  }

  function CancelingOne(o: Origin): Sys {
    WorkingOne(o).(cancels := map[0 := Canceling(WithStatus(First(o), Running, 1), "")], nextCancel := 1)
  }

  lemma CancelWaits(o: Origin)
    ensures Wf(WorkingOne(o)) && Apply(CFG, WorkingOne(o), Cancel(0, "", 2)) == CancelingOne(o) && Wf(CancelingOne(o))
    ensures CancelingOne(o).core.store.jobs == map[0 := WithStatus(First(o), Running, 1)]
  {
    WorkingJob(o);
    StepKeepsWf(CFG, WorkingOne(o), Cancel(0, "", 2));
    assert CancelBeginSpec(WorkingOne(o).core, 0, "", 2).1 == AwaitingWorker(WithStatus(First(o), Running, 1));
  }

  /** The state once the follow-up is attached, too. */
  function NotedOne(o: Origin, text: string): Sys {
    CancelingOne(o).(core := AttachFollowupSpec(CancelingOne(o).core, 0, text))
  }

  lemma Noted(o: Origin, text: string)
    ensures Wf(CancelingOne(o)) && Apply(CFG, CancelingOne(o), Direct(AttachFollowup(0, text))) == NotedOne(o, text)
  {
    CancelWaits(o);
  }

  lemma NoteCarried(o: Origin, text: string)
    ensures Wf(NotedOne(o, text)) && Attachments.Carried(NotedOne(o, text), 0, Attachments.Lists([text], []))
  {
    CancelWaits(o);
    Noted(o, text);
    Attachments.AttachedDuringRun(CFG, CancelingOne(o), 0, Attachments.Followup(text), []);
    assert [] + [text] == [text];
  }

  lemma NotedJob(o: Origin, text: string)
    ensures Reached(CFG, ToWork(o) + [Cancel(0, "", 2)] + [Direct(AttachFollowup(0, text))]) == NotedOne(o, text)
  {
    WorkingJob(o);
    CancelWaits(o);
    Noted(o, text);
    Extend(ToWork(o), WorkingOne(o), Cancel(0, "", 2), CancelingOne(o));
    Extend(ToWork(o) + [Cancel(0, "", 2)], CancelingOne(o), Direct(AttachFollowup(0, text)), NotedOne(o, text));
  }

  lemma TwoMore(ops: seq<Op>, first: Op, second: Op)
    ensures Wf(Apply(CFG, Reached(CFG, ops), first))
    ensures Reached(CFG, ops + [first] + [second]) == Apply(CFG, Apply(CFG, Reached(CFG, ops), first), second)
  {
    StepKeepsWf(CFG, Reached(CFG, ops), first);
    RunSnoc(CFG, INIT, ops, first);
    RunSnoc(CFG, INIT, ops + [first], second);
  }

  /** Whatever a run does first, a pending cancel then writes back the record it holds. */
  lemma PendingCancelLoses(s: Sys, r: nat, resume: RunOp, k: nat, now: Time, x: Attachments.Lists)
    requires Wf(s) && k in s.cancels && Attachments.Carried(s, s.cancels[k].job.id, x)
             && !Attachments.Carries(s.cancels[k].job, x)
    requires !Attachments.Loses(s, OfRun(r, resume), s.cancels[k].job.id, x)
    ensures var ended := Apply(CFG, s, OfRun(r, resume));
            Wf(ended) && !Attachments.Carried(Apply(CFG, ended, CancelResumes(k, now)), s.cancels[k].job.id, x)
  {
    StepKeepsWf(CFG, s, OfRun(r, resume));
    RunStep(CFG, s, r, resume);
    var id, ended := s.cancels[k].job.id, Apply(CFG, s, OfRun(r, resume));
    assert ended.cancels == s.cancels;
    Attachments.AttachmentKeptIff(CFG, s, OfRun(r, resume), id, x);
    Attachments.AttachmentKeptIff(CFG, ended, CancelResumes(k, now), id, x);
  }

  lemma LostAtEnd(ops: seq<Op>, s: Sys, r: nat, resume: RunOp, k: nat, now: Time, x: Attachments.Lists)
    requires Reached(CFG, ops) == s && k in s.cancels && !Attachments.Carries(s.cancels[k].job, x)
    requires Wf(s) && Attachments.Carried(s, s.cancels[k].job.id, x)
    requires !Attachments.Loses(s, OfRun(r, resume), s.cancels[k].job.id, x)
    ensures !Attachments.Carried(Reached(CFG, ops + [OfRun(r, resume)] + [CancelResumes(k, now)]),
                                 s.cancels[k].job.id, x)
  {
    TwoMore(ops, OfRun(r, resume), CancelResumes(k, now));
    PendingCancelLoses(s, r, resume, k, now, x);
  }

  /** And it is gone when a `cancel` that was waiting for the worker goes on, although the run
      itself kept it. */
  lemma FollowupLostOnCancel(o: Origin, text: string)
    ensures !Attachments.Carried(Reached(CFG, ToWork(o) + [Cancel(0, "", 2)] + [Direct(AttachFollowup(0, text))]
                                              + [OfRun(0, WorkerEnds(TaskCanceled, 3))] + [CancelResumes(0, 4)]),
                                 0, Attachments.Lists([text], []))
  {
    NotedJob(o, text);
    NoteCarried(o, text);
    LostAtEnd(ToWork(o) + [Cancel(0, "", 2)] + [Direct(AttachFollowup(0, text))], NotedOne(o, text),
              0, WorkerEnds(TaskCanceled, 3), 0, 4, Attachments.Lists([text], []));
  }
}
