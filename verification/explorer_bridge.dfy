/** AgentRuntimeExplorerRunner (src/agent_runtime/bridge.py): identical calls, one after the
    other, through the runtime. */
module ExplorerBridge {
  import opened Common
  import opened Jobs
  import opened JobStore
  import opened Runtime

  /** One call: the id a new job would get, the clock at its three saves, and how the worker
      would end if it is run. */
  datatype Call = Call(id: Id, created: Time, started: Time, ended: Time, outcome: Outcome)

  /** What a call returns: the worker runs it made, and the report, None being RuntimeError. */
  datatype Reply = Reply(workerRuns: nat, report: Option<Capsule>)

  predicate Reusable(job: Job) {
    if job.status.Done? then job.result.Some?
    else !(job.status == Status.Failed || job.status == Status.Canceled || job.status.NeedsReview?)
  }

  /** _create_job: a reusable record of the fingerprint, or else a new job. */
  function CreateOrReuse(cfg: Config, c: Core, origin: Origin, call: Call): (Core, Option<Job>)
    requires ValidStore(c.store)
  {
    var existing := Find(c.store, origin.fingerprint);
    if existing.Some? && Reusable(existing.value) then (c, existing)
    else
      var (c', o) := CreateSpec(cfg, c, NewJob(call.id, origin, Queued, call.created), None);
      (c', if o.Refused? then None else Some(o.job))
  }

  function FinalRecord(f: Finish): Job { if f.Ended? then f.job else f.completed }

  lemma CreateOrReuseValid(cfg: Config, c: Core, origin: Origin, call: Call)
    requires ValidStore(c.store)
    ensures ValidStore(CreateOrReuse(cfg, c, origin, call).0.store)
  {
    PutValid(c.store, NewJob(call.id, origin, Queued, call.created));
  }

  /** start of one job, with the worker's end given by the call. */
  function RunJob(c: Core, id: Id, call: Call): (Core, Reply) {
    var (c1, o) := StartSpec(c, id, call.started);
    match o
    case NoSuchJob => (c1, Reply(0, None))
    case WorkerUnknown(_) => (c1, Reply(0, None))
    case NotStarted(j) => (c1, Reply(0, j.result))
    case Launched(running) =>
      var (c2, f) := AfterWorkerSpec(c1, running, call.outcome, call.ended);
      (c2, Reply(1, FinalRecord(f).result))
  }

  lemma RunJobValid(c: Core, id: Id, call: Call)
    requires ValidStore(c.store)
    ensures ValidStore(RunJob(c, id, call).0.store)
  {
    var (c1, o) := StartSpec(c, id, call.started);
    if id in c.store.jobs {
      PutValid(c.store, WithStatus(c.store.jobs[id], Running, call.started));
    }
    if o.Launched? {
      PutValid(c1.store, FinalRecord(AfterWorkerSpec(c1, o.running, call.outcome, call.ended).1));
    }
  }

  function CallSpec(cfg: Config, c: Core, origin: Origin, call: Call): (r: (Core, Reply))
    requires ValidStore(c.store)
    ensures ValidStore(r.0.store)
  {
    var (c1, job) := CreateOrReuse(cfg, c, origin, call);
    CreateOrReuseValid(cfg, c, origin, call);
    if job.None? then (c1, Reply(0, None))
    else if job.value.status.Done? && job.value.result.Some? then (c1, Reply(0, job.value.result))
    else
      RunJobValid(c1, job.value.id, call);
      RunJob(c1, job.value.id, call)
  }

  /** What a call does in any state: a DONE record with a result answers it, an unfinished one is
      started, and otherwise a new job is, unless the chat's queue is full. */
  lemma CallMeans(cfg: Config, c: Core, origin: Origin, call: Call)
    requires ValidStore(c.store)
    ensures var found := Find(c.store, origin.fingerprint);
            var job := NewJob(call.id, origin, Queued, call.created);
            if found.Some? && found.value.status == Done && found.value.result.Some?
            then CallSpec(cfg, c, origin, call) == (c, Reply(0, found.value.result))
            else if found.Some? && found.value.status in OPEN_STATUSES
            then CallSpec(cfg, c, origin, call) == RunJob(c, found.value.id, call)
            else if QueueFull(cfg, c.store, job) then CallSpec(cfg, c, origin, call) == (c, Reply(0, None))
            else CallSpec(cfg, c, origin, call) == RunJob(Commit(c, job, CREATED, "Created job"), call.id, call)
  {
    NewOrReused(cfg, c, origin, call);
  }

  lemma NewOrReused(cfg: Config, c: Core, origin: Origin, call: Call)
    requires ValidStore(c.store)
    ensures var found := Find(c.store, origin.fingerprint);
            var job := NewJob(call.id, origin, Queued, call.created);
            var created := CreateOrReuse(cfg, c, origin, call);
            if found.Some?
               && (found.value.status in OPEN_STATUSES || (found.value.status == Done && found.value.result.Some?))
            then created == (c, found)
            else if QueueFull(cfg, c.store, job) then created == (c, None)
            else created == (Commit(c, job, CREATED, "Created job"), Some(job))
  {
    LimitMeans(cfg, c.store, NewJob(call.id, origin, Queued, call.created));
  }

  /** What the run of a job answers: nothing without job or worker, the stored result of a finished
      job, and otherwise, after exactly one run of the worker, the result it leaves stored. */
  lemma RunMeans(c: Core, id: Id, call: Call)
    requires ValidStore(c.store)
    ensures var (c', r) := RunJob(c, id, call);
            if id !in c.store.jobs then c' == c && r == Reply(0, None)
            else if c.store.jobs[id].status !in OPEN_STATUSES then c' == c && r == Reply(0, c.store.jobs[id].result)
            else if c.store.jobs[id].origin.worker !in c.workers then r == Reply(0, None)
            else id in c'.store.jobs && c'.store.jobs[id].status !in OPEN_STATUSES
                 && r == Reply(1, c'.store.jobs[id].result)
  {
    StartAnswers(c, id, call.started);
    var (c1, o) := StartSpec(c, id, call.started);
    if o.Launched? {
      PutValid(c.store, WithStatus(c.store.jobs[id], Running, call.started));
      AfterWorkerAnswers(c1, o.running, call.outcome, call.ended);
    }
  }

  /* ---- the state between calls ---- */

  /** What a call that runs the worker returns. */
  function ReportOf(o: Outcome): Option<Capsule> {
    match o
    case Returned(capsule) => Some(capsule)
    case Raised(_, partial) => partial
    case TimedOut(reason) => Some(TimeoutCapsule(reason))
    case TaskCanceled => None
  }

  /** Room for one more queued job of the chat, and a registered worker. */
  ghost predicate Ready(cfg: Config, c: Core, origin: Origin) {
    && ValidStore(c.store)
    && origin.worker in c.workers
    && |Occupying(c.store, QUEUE_STATUSES, origin.chat)| < cfg.maxQueued
  }

  /** Every record of the fingerprint is finished and older than `now`; `done` is the report
      of the one that succeeded, which is newer than all others. */
  ghost predicate Settled(c: Core, fingerprint: string, done: Option<Capsule>, now: Time) {
    && (forall id :: Matches(c.store, fingerprint, id) ==>
          Terminal(c.store.jobs[id].status) && c.store.jobs[id].updatedAt < now)
    && match done
       case None => forall id :: Matches(c.store, fingerprint, id) ==> !c.store.jobs[id].status.Done?
       case Some(capsule) =>
         exists d :: Matches(c.store, fingerprint, d) && IsAnswer(c.store, fingerprint, d, capsule)
  }

  ghost predicate IsAnswer(s: Store, fingerprint: string, d: Id, capsule: Capsule)
    requires d in s.jobs
  {
    && s.jobs[d].status.Done? && s.jobs[d].result == Some(capsule)
    && (forall id :: Matches(s, fingerprint, id) && id != d ==> Newer(s.jobs[d], s.jobs[id]))
  }

  /** Once a job of the fingerprint is done, a call changes nothing and returns its result. */
  lemma AnsweredCall(cfg: Config, c: Core, origin: Origin, call: Call, capsule: Capsule, now: Time)
    requires ValidStore(c.store)
    requires Settled(c, origin.fingerprint, Some(capsule), now)
    ensures CallSpec(cfg, c, origin, call) == (c, Reply(0, Some(capsule)))
  {
    var d :| Matches(c.store, origin.fingerprint, d) && IsAnswer(c.store, origin.fingerprint, d, capsule);
    FindPrefersUnfinished(c.store, origin.fingerprint);
    var best := Find(c.store, origin.fingerprint).value;
    assert best.id == d;
  }

  /** The record a call that ran the worker leaves behind. */
  ghost predicate LastOf(last: Job, origin: Origin, call: Call) {
    && last.id == call.id && last.origin == origin
    && Terminal(last.status) && last.updatedAt == call.ended
    && (last.status.Done? <==> call.outcome.Returned?)
    && last.result == ReportOf(call.outcome)
  }

  /** A freshly queued job with a registered worker is run exactly once and ends finished. */
  lemma RunOfNewJob(c: Core, job: Job, origin: Origin, call: Call)
    requires job == NewJob(call.id, origin, Queued, call.created)
    requires call.id in c.store.jobs && c.store.jobs[call.id] == job && origin.worker in c.workers
    ensures var (c', r) := RunJob(c, call.id, call);
            && r == Reply(1, ReportOf(call.outcome)) && c'.workers == c.workers
            && c'.store.order == c.store.order
            && (exists last :: c'.store.jobs == c.store.jobs[call.id := last] && LastOf(last, origin, call))
  {
    var running := WithStatus(job, Running, call.started);
    var (c1, o) := StartSpec(c, call.id, call.started);
    assert o == Launched(running) && c1.store.jobs[call.id] == running;
    var (c2, f) := AfterWorkerSpec(c1, running, call.outcome, call.ended);
    var last := FinalRecord(f);
    assert c2.store == Put(Put(c.store, running), last);
    assert c2.store.jobs == c.store.jobs[call.id := last];
    assert LastOf(last, origin, call);
  }

  /** Before that, a call creates a job, runs the worker once, and leaves the job finished. */
  lemma UnansweredCall(cfg: Config, c: Core, origin: Origin, call: Call, now: Time)
    requires Ready(cfg, c, origin) && call.id !in c.store.jobs
    requires Settled(c, origin.fingerprint, None, now)
    ensures var (c', r) := CallSpec(cfg, c, origin, call);
            && r == Reply(1, ReportOf(call.outcome))
            && c'.workers == c.workers
            && (exists last :: c'.store == Put(c.store, last) && LastOf(last, origin, call))
  {
    var job := NewJob(call.id, origin, Queued, call.created);
    NewJobIsCreated(cfg, c, origin, call, now);
    var c1 := Commit(c, job, CREATED, "Created job");
    RunOfNewJob(c1, job, origin, call);
    var c' := RunJob(c1, call.id, call).0;
    var last :| c'.store.jobs == c1.store.jobs[call.id := last] && LastOf(last, origin, call);
    PutTwice(c.store, job, last);
  }

  lemma PutTwice(s: Store, job: Job, last: Job)
    requires job.id !in s.jobs && last.id == job.id
    ensures Put(s, last) == Store(Put(s, job).order, Put(s, job).jobs[job.id := last])
  {
  }

  lemma NewJobIsCreated(cfg: Config, c: Core, origin: Origin, call: Call, now: Time)
    requires Ready(cfg, c, origin) && call.id !in c.store.jobs
    requires Settled(c, origin.fingerprint, None, now)
    ensures var job := NewJob(call.id, origin, Queued, call.created);
            CreateOrReuse(cfg, c, origin, call) == (Commit(c, job, CREATED, "Created job"), Some(job))
  {
    var job := NewJob(call.id, origin, Queued, call.created);
    FindPrefersUnfinished(c.store, origin.fingerprint);
    assert LimitReached(cfg, c.store, job).None?;
  }

  lemma SettlesAgain(cfg: Config, c: Core, c': Core, origin: Origin, call: Call, last: Job, now: Time, next: Time)
    requires Ready(cfg, c, origin) && call.id !in c.store.jobs
    requires Settled(c, origin.fingerprint, None, now) && now <= call.ended < next
    requires c'.store == Put(c.store, last) && LastOf(last, origin, call) && c'.workers == c.workers
    ensures Ready(cfg, c', origin)
    ensures Settled(c', origin.fingerprint, if call.outcome.Returned? then Some(call.outcome.capsule) else None, next)
  {
    PutValid(c.store, last);
    assert Occupying(c'.store, QUEUE_STATUSES, origin.chat) == Occupying(c.store, QUEUE_STATUSES, origin.chat);
    if call.outcome.Returned? {
      assert Matches(c'.store, origin.fingerprint, call.id);
      assert IsAnswer(c'.store, origin.fingerprint, call.id, call.outcome.capsule);
    }
  }

  /* ---- any number of calls ---- */

  /** The calls happen one after the other, each with a fresh id and strictly later saves. */
  ghost predicate Sequential(cfg: Config, c: Core, origin: Origin, calls: seq<Call>, now: Time)
    requires ValidStore(c.store)
    decreases |calls|
  {
    calls != [] ==>
      && now <= calls[0].created < calls[0].started < calls[0].ended
      && calls[0].id !in c.store.jobs
      && Sequential(cfg, CallSpec(cfg, c, origin, calls[0]).0, origin, calls[1..], calls[0].ended + 1)
  }

  function Replies(cfg: Config, c: Core, origin: Origin, calls: seq<Call>): seq<Reply>
    requires ValidStore(c.store)
    decreases |calls|
  {
    if calls == [] then []
    else [CallSpec(cfg, c, origin, calls[0]).1] + Replies(cfg, CallSpec(cfg, c, origin, calls[0]).0, origin, calls[1..])
  }

  /** What the calls are supposed to return: the worker runs in each call until one of them
      succeeds, and from then on that result is returned without running anything. */
  function Expected(calls: seq<Call>, done: Option<Capsule>): seq<Reply> {
    if calls == [] then []
    else if done.Some? then [Reply(0, done)] + Expected(calls[1..], done)
    else
      [Reply(1, ReportOf(calls[0].outcome))]
      + Expected(calls[1..], if calls[0].outcome.Returned? then Some(calls[0].outcome.capsule) else None)
  }

  /** Sequential identical calls run the worker exactly once each until a job of the
      fingerprint is DONE; every later call runs it zero times and returns that result. */
  lemma {:induction false} ResultIsReused(cfg: Config, c: Core, origin: Origin,
                                          calls: seq<Call>, done: Option<Capsule>, now: Time)
    requires Ready(cfg, c, origin)
             && Settled(c, origin.fingerprint, done, now) && Sequential(cfg, c, origin, calls, now)
    ensures Replies(cfg, c, origin, calls) == Expected(calls, done)
    decreases |calls|
  {
    if calls != [] {
      var call := calls[0];
      var c' := CallSpec(cfg, c, origin, call).0;
      if done.Some? {
        AnsweredCall(cfg, c, origin, call, done.value, now);
        ResultIsReused(cfg, c', origin, calls[1..], done, call.ended + 1);
      } else {
        UnansweredCall(cfg, c, origin, call, now);
        var last :| c'.store == Put(c.store, last) && LastOf(last, origin, call);
        SettlesAgain(cfg, c, c', origin, call, last, now, call.ended + 1);
        var answer := if call.outcome.Returned? then Some(call.outcome.capsule) else None;
        ResultIsReused(cfg, c', origin, calls[1..], answer, call.ended + 1);
      }
    }
  }

  /* ---- the runner object ---- */

  class AgentRuntimeExplorerRunner {
    const runtime: AgentRuntime
    const origin: Origin

    constructor (runtime: AgentRuntime, origin: Origin)
      ensures this.runtime == runtime && this.origin == origin
    {
      this.runtime := runtime;
      this.origin := origin;
    }

    /** _create_job. */
    method GetOrCreate(call: Call) returns (r: Option<Job>)
      requires runtime.Valid()
      modifies runtime.store, runtime.events
      ensures runtime.Valid() && (runtime.View(), r) == CreateOrReuse(runtime.cfg, old(runtime.View()), origin, call)
    {
      var found := runtime.store.FindByFingerprint(origin.fingerprint);
      if found.Some? && Reusable(found.value) {
        return found;
      }
      var o := runtime.CreateJob(call.id, origin, Queued, None, call.created);
      r := if o.Refused? then None else Some(o.job);
    }

    /** __call__, with the worker's end given by the call. */
    method Explore(call: Call) returns (r: Reply)
      requires runtime.Valid()
      modifies runtime.store, runtime.events
      ensures runtime.Valid() && (runtime.View(), r) == CallSpec(runtime.cfg, old(runtime.View()), origin, call)
    {
      var job := GetOrCreate(call);
      if job.None? {
        return Reply(0, None);
      }
      if job.value.status.Done? && job.value.result.Some? {
        return Reply(0, job.value.result);
      }
      r := Run(job.value.id, call);
    }

    method Run(id: Id, call: Call) returns (r: Reply)
      requires runtime.Valid()
      modifies runtime.store, runtime.events
      ensures runtime.Valid() && (runtime.View(), r) == RunJob(old(runtime.View()), id, call)
    {
      var started := runtime.Start(id, call.started);
      match started {
        case NoSuchJob => r := Reply(0, None);
        case WorkerUnknown(_) => r := Reply(0, None);
        case NotStarted(j) => r := Reply(0, j.result);
        case Launched(running) =>
          var f := runtime.AfterWorker(running, call.outcome, call.ended);
          r := Reply(1, FinalRecord(f).result);
      }
    }
  }
}
