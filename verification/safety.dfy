/** What every run of the agent runtime keeps. */
module Safety {
  import opened Common
  import opened Jobs
  import opened JobStore
  import opened Runtime
  import opened Protocol
  import opened Saves

  /* ---- terminal statuses are final, except for enqueue ---- */

  /** The operation enqueues the job, whether or not the process dies after the save. */
  predicate Enqueues(op: Op, id: Id) { RightOf(op) == MayEnqueue(id) }

  ghost predicate TerminalIn(s: Sys, id: Id) {
    id in s.core.store.jobs && Terminal(s.core.store.jobs[id].status)
  }

  /** Whatever is suspended, one operation takes a job out of the terminal statuses if and
      only if it enqueues that job. */
  lemma LeavesTerminalOnlyByEnqueue(cfg: Config, s: Sys, op: Op, id: Id)
    requires Wf(s) && TerminalIn(s, id)
    ensures Wf(Apply(cfg, s, op)) && (TerminalIn(Apply(cfg, s, op), id) <==> !Enqueues(op, id))
  {
    StepEffect(cfg, s, op);
    StepKeepsWf(cfg, s, op);
  }

  /** A finished job stays finished through every interleaving that does not enqueue it. */
  lemma {:induction false} TerminalIsClosed(cfg: Config, s: Sys, ops: seq<Op>, id: Id)
    requires Wf(s) && TerminalIn(s, id)
    requires forall op :: op in ops ==> !Enqueues(op, id)
    ensures TerminalIn(RunFrom(cfg, s, ops), id)
  {
    if ops != [] {
      var front := ops[..|ops| - 1];
      TerminalIsClosed(cfg, s, front, id);
      LeavesTerminalOnlyByEnqueue(cfg, RunFrom(cfg, s, front), ops[|ops| - 1], id);
    }
  }

  /* ---- cancel wins ---- */

  /** The operations that write over a terminal record: the explicit calls on the job, a pending
      cancel of it, and a run of it that times out; whether or not they are cut short. */
  predicate Overwrites(s: Sys, op: Op, id: Id) {
    match CallOf(op)
    case Direct(Enqueue(j, _)) => j == id
    case Direct(Complete(j, _, _)) => j == id
    case Direct(Fail(j, _, _)) => j == id
    case Cancel(j, _, _) => j == id
    case CancelResumes(k, _) => k in s.cancels && s.cancels[k].job.id == id
    case OfRun(r, WorkerEnds(TimedOut(_), _)) => r in s.runs && s.runs[r].phase.Working? && s.runs[r].running.id == id
    case _ => false
  }

  /** The time such an operation writes. */
  function StampOf(op: Op): Time {
    match CallOf(op)
    case Direct(Enqueue(_, now)) => now
    case Direct(Complete(_, _, now)) => now
    case Direct(Fail(_, _, now)) => now
    case Cancel(_, _, now) => now
    case CancelResumes(_, now) => now
    case OfRun(_, WorkerEnds(_, now)) => now
    case _ => 0
  }

  lemma TerminalSaves(cfg: Config, s: Sys, op: Op, id: Id)
    requires Wf(s) && TerminalIn(s, id) && !op.Torn?
    ensures var record := SavedRecord(cfg, s, op);
            && (record.Some? && record.value.id == id <==> Overwrites(s, op, id))
            && (Overwrites(s, op, id) ==> record.value.updatedAt == StampOf(op))
  {
  }

  /** A terminal record is untouched by every operation that is not one of Overwrites, and each
      of these stamps it with its own time. So when time has passed since the record was
      written, it is kept if and only if the operation is none of them. */
  lemma TerminalRecordKept(cfg: Config, s: Sys, op: Op, id: Id)
    requires Wf(s) && TerminalIn(s, id)
    ensures var before, after := s.core.store.jobs[id], Apply(cfg, s, op).core.store.jobs;
            && id in after
            && (!Overwrites(s, op, id) ==> after[id] == before)
            && (Overwrites(s, op, id) ==> after[id].updatedAt == StampOf(op))
            && (StampOf(op) > before.updatedAt ==> (after[id] == before <==> !Overwrites(s, op, id)))
  {
    if Recovers(op) {
      RecoveryKeepsTerminal(cfg, s, op, id);
    } else {
      StoreAfter(cfg, s, op);
      if !CallOf(op).Torn? {
        TerminalSaves(cfg, s, CallOf(op), id);
      }
    }
  }

  lemma RecoveryKeepsTerminal(cfg: Config, s: Sys, op: Op, id: Id)
    requires Wf(s) && TerminalIn(s, id) && Recovers(op)
    ensures !Overwrites(s, op, id) && TerminalIn(Apply(cfg, s, op), id)
    ensures Apply(cfg, s, op).core.store.jobs[id] == s.core.store.jobs[id]
  {
    StoreAfterRecovery(cfg, s, op);
  }

  function OverwritesOf(id: Id): (Sys, Op) -> bool { (s: Sys, op: Op) => Overwrites(s, op, id) }

  /** Once canceled, a record is final: unless one of these operations comes, no later result,
      exception, task cancellation, recovery, restart or attachment of any run changes it. */
  lemma {:induction false} CancelWins(cfg: Config, s: Sys, ops: seq<Op>, id: Id)
    requires Wf(s) && id in s.core.store.jobs && s.core.store.jobs[id].status == Status.Canceled
    requires Never(cfg, s, ops, OverwritesOf(id))
    ensures var s' := RunFrom(cfg, s, ops);
            id in s'.core.store.jobs && s'.core.store.jobs[id] == s.core.store.jobs[id]
  {
    if ops != [] {
      var front := ops[..|ops| - 1];
      CancelWins(cfg, s, front, id);
      TerminalRecordKept(cfg, RunFrom(cfg, s, front), ops[|ops| - 1], id);
    }
  }

  /* ---- at most one unfinished job per fingerprint ---- */

  predicate Revives(s: Sys, op: Op, id: Id) {
    Enqueues(op, id) && id in s.core.store.jobs && Terminal(s.core.store.jobs[id].status)
  }

  /** How often a run enqueues a job that is finished. */
  ghost function Revivals(cfg: Config, ops: seq<Op>, id: Id): nat {
    if ops == [] then 0
    else
      var front := ops[..|ops| - 1];
      Revivals(cfg, front, id) + if Revives(Reached(cfg, front), ops[|ops| - 1], id) then 1 else 0
  }

  ghost predicate OnePerFingerprint(s: Store) {
    forall a, b :: a in s.jobs && b in s.jobs && a != b && !Terminal(s.jobs[a].status) && !Terminal(s.jobs[b].status)
                   ==> s.jobs[a].origin.fingerprint != s.jobs[b].origin.fingerprint
  }

  /** The right revives a finished job while another unfinished job has its fingerprint. */
  ghost predicate Clashes(s: Store, right: Right) {
    && right.MayEnqueue? && right.id in s.jobs && Terminal(s.jobs[right.id].status)
    && exists other :: UnfinishedTwin(s, right.id, other)
  }

  ghost predicate UnfinishedTwin(s: Store, id: Id, other: Id)
    requires id in s.jobs
  {
    other in s.jobs && other != id && !Terminal(s.jobs[other].status)
    && s.jobs[other].origin.fingerprint == s.jobs[id].origin.fingerprint
  }

  lemma StepKeepsOnePerFingerprint(cfg: Config, right: Right, a: Store, b: Store)
    requires ValidStore(a) && StoreStep(cfg, right, a, b) && OnePerFingerprint(a) && !Clashes(a, right)
    ensures OnePerFingerprint(b)
  {
    forall x, y | x in b.jobs && y in b.jobs && x != y && !Terminal(b.jobs[x].status) && !Terminal(b.jobs[y].status)
      ensures b.jobs[x].origin.fingerprint != b.jobs[y].origin.fingerprint
    {
      NoTwins(cfg, right, a, b, x, y);
    }
  }

  lemma NoTwins(cfg: Config, right: Right, a: Store, b: Store, x: Id, y: Id)
    requires ValidStore(a) && StoreStep(cfg, right, a, b) && OnePerFingerprint(a) && !Clashes(a, right)
    requires x in b.jobs && y in b.jobs && x != y && !Terminal(b.jobs[x].status) && !Terminal(b.jobs[y].status)
    ensures b.jobs[x].origin.fingerprint != b.jobs[y].origin.fingerprint
  {
    if x !in a.jobs {
      assert NewJobStep(cfg, right, a, b.jobs[x]);
      assert JobStep(right, a.jobs[y], b.jobs[y]);
      assert !Matches(a, b.jobs[x].origin.fingerprint, y);
    } else if y !in a.jobs {
      assert NewJobStep(cfg, right, a, b.jobs[y]);
      assert JobStep(right, a.jobs[x], b.jobs[x]);
      assert !Matches(a, b.jobs[y].origin.fingerprint, x);
    } else {
      assert JobStep(right, a.jobs[x], b.jobs[x]) && JobStep(right, a.jobs[y], b.jobs[y]);
      assert right == MayEnqueue(x) && Terminal(a.jobs[x].status) ==> !UnfinishedTwin(a, x, y);
      assert right == MayEnqueue(y) && Terminal(a.jobs[y].status) ==> !UnfinishedTwin(a, y, x);
    }
  }

  lemma EnqueueSaves(cfg: Config, s: Sys, op: Op)
    requires Wf(s) && RightOf(op).MayEnqueue? && RightOf(op).id in s.core.store.jobs
    ensures var id := RightOf(op).id;
            Apply(cfg, s, op).core.store == Put(s.core.store, WithStatus(s.core.store.jobs[id], Queued, StampOf(op)))
  {
    StoreAfter(cfg, s, op);
  }

  /** One operation takes uniqueness away if and only if it revives a finished job while
      another unfinished job has its fingerprint. */
  lemma UniquenessLostIff(cfg: Config, s: Sys, op: Op)
    requires Wf(s) && OnePerFingerprint(s.core.store)
    ensures OnePerFingerprint(Apply(cfg, s, op).core.store) <==> !Clashes(s.core.store, RightOf(op))
  {
    StepEffect(cfg, s, op);
    var right := RightOf(op);
    if Clashes(s.core.store, right) {
      EnqueueSaves(cfg, s, op);
      var other :| UnfinishedTwin(s.core.store, right.id, other);
      var store' := Put(s.core.store, WithStatus(s.core.store.jobs[right.id], Queued, StampOf(op)));
      assert store'.jobs[other] == s.core.store.jobs[other] && !Terminal(store'.jobs[right.id].status);
    } else {
      StepKeepsOnePerFingerprint(cfg, right, s.core.store, Apply(cfg, s, op).core.store);
    }
  }

  /** Every state of a run has at most one unfinished job per fingerprint if and only if the
      run never revives a job that has an unfinished twin. */
  lemma FingerprintsUniqueIff(cfg: Config, ops: seq<Op>)
    ensures Always(cfg, INIT, ops, (s: Sys) => OnePerFingerprint(s.core.store))
       <==> Never(cfg, INIT, ops, (s: Sys, op: Op) => Clashes(s.core.store, RightOf(op)))
  {
    forall s, op | Wf(s) && OnePerFingerprint(s.core.store)
      ensures OnePerFingerprint(Apply(cfg, s, op).core.store) <==> !Clashes(s.core.store, RightOf(op))
    {
      UniquenessLostIff(cfg, s, op);
    }
    AlwaysIffNever(cfg, INIT, ops, (s: Sys) => OnePerFingerprint(s.core.store),
                   (s: Sys, op: Op) => Clashes(s.core.store, RightOf(op)));
  }

  /** In every reachable state of a run that revives no job, each fingerprint has at most one
      unfinished job. */
  lemma {:induction false} FingerprintsAreUnique(cfg: Config, ops: seq<Op>)
    requires forall id :: Revivals(cfg, ops, id) == 0
    ensures OnePerFingerprint(Reached(cfg, ops).core.store)
  {
    if ops != [] {
      var front, op := ops[..|ops| - 1], ops[|ops| - 1];
      var s := Reached(cfg, front);
      forall id
        ensures Revivals(cfg, front, id) == 0 && !Revives(s, op, id)
      {
        assert Revivals(cfg, ops, id) == 0;
      }
      FingerprintsAreUnique(cfg, front);
      assert RightOf(op).MayEnqueue? ==> !Revives(s, op, RightOf(op).id);
      UniquenessLostIff(cfg, s, op);
    }
  }

  /* ---- how many jobs of a chat wait, and how many are active ---- */

  /** The two groups of statuses that create_job limits per chat. */
  datatype Group = Waiting | Busy

  function StatusesOf(g: Group): set<Status> { if g.Waiting? then QUEUE_STATUSES else ACTIVE_STATUSES }

  function LimitOf(cfg: Config, g: Group): int { if g.Waiting? then cfg.maxQueued else cfg.maxActive }

  ghost function Members(s: Store, g: Group, chat: int): set<Id> { Occupying(s, StatusesOf(g), chat) }

  /** The right brings a job of the chat into the group from another status: `enqueue` into
      the waiting ones, a start into the active ones. */
  predicate BringsIn(right: Right, s: Store, g: Group, chat: int) {
    && (if g.Waiting? then right.MayEnqueue? else right.MayStart?)
    && right.id in s.jobs && s.jobs[right.id].origin.chat == chat && s.jobs[right.id].status !in StatusesOf(g)
  }

  /** How often a run brings one of the chat's jobs into the group. */
  ghost function MovesIn(cfg: Config, ops: seq<Op>, g: Group, chat: int): nat {
    if ops == [] then 0
    else
      var front := ops[..|ops| - 1];
      var store := Reached(cfg, front).core.store;
      MovesIn(cfg, front, g, chat) + if BringsIn(RightOf(ops[|ops| - 1]), store, g, chat) then 1 else 0
  }

  lemma SubsetSize<T>(a: set<T>, b: set<T>)
    requires a <= b
    ensures |a| <= |b|
  {
    assert b == a + (b - a);
  }

  /** A job is in the group after an operation only if it was before, was brought in, or was
      created by it within the limit. */
  lemma StillMember(cfg: Config, right: Right, a: Store, b: Store, g: Group, chat: int, id: Id)
    requires ValidStore(a) && StoreStep(cfg, right, a, b) && id in Members(b, g, chat)
    ensures || id in Members(a, g, chat)
            || (BringsIn(right, a, g, chat) && right.id == id)
            || (right.MayCreate? && right.job.id == id && id !in a.jobs && |Members(a, g, chat)| < LimitOf(cfg, g))
  {
    if id in a.jobs {
      assert JobStep(right, a.jobs[id], b.jobs[id]);
    } else {
      assert NewJobStep(cfg, right, a, b.jobs[id]);
    }
  }

  lemma GroupGrowth(cfg: Config, right: Right, a: Store, b: Store, g: Group, chat: int)
    requires ValidStore(a) && StoreStep(cfg, right, a, b)
    ensures var before, after := |Members(a, g, chat)|, |Members(b, g, chat)|;
            after <= before || after <= LimitOf(cfg, g) || (after <= before + 1 && BringsIn(right, a, g, chat))
  {
    var before, after := Members(a, g, chat), Members(b, g, chat);
    if after <= before {
      SubsetSize(after, before);
    } else {
      var extra :| extra in after && extra !in before;
      StillMember(cfg, right, a, b, g, chat, extra);
      forall id | id in after
        ensures id in before + {extra}
      {
        StillMember(cfg, right, a, b, g, chat, id);
      }
      SubsetSize(after, before + {extra});
    }
  }

  lemma {:induction false} GroupBound(cfg: Config, ops: seq<Op>, g: Group, chat: int)
    ensures |Members(Reached(cfg, ops).core.store, g, chat)| <= Max(0, LimitOf(cfg, g)) + MovesIn(cfg, ops, g, chat)
  {
    if ops == [] {
      assert Members(EMPTY_STORE, g, chat) == {};
    } else {
      var front, op := ops[..|ops| - 1], ops[|ops| - 1];
      var s := Reached(cfg, front);
      GroupBound(cfg, front, g, chat);
      StepEffect(cfg, s, op);
      GroupGrowth(cfg, RightOf(op), s.core.store, Apply(cfg, s, op).core.store, g, chat);
    }
  }

  /** A chat's QUEUED and AWAITING_INPUT jobs never exceed the configured limit by more than
      the number of `enqueue` calls that brought one of its jobs in from another status. */
  lemma QueueBound(cfg: Config, ops: seq<Op>, chat: int)
    ensures |Members(Reached(cfg, ops).core.store, Waiting, chat)|
         <= Max(0, cfg.maxQueued) + MovesIn(cfg, ops, Waiting, chat)
  {
    GroupBound(cfg, ops, Waiting, chat);
  }

  /** A chat's RUNNING and WAITING_USER jobs exceed their limit by at most the number of starts
      of its jobs that were not active. */
  lemma ActiveBound(cfg: Config, ops: seq<Op>, chat: int)
    ensures |Members(Reached(cfg, ops).core.store, Busy, chat)| <= Max(0, cfg.maxActive) + MovesIn(cfg, ops, Busy, chat)
  {
    GroupBound(cfg, ops, Busy, chat);
  }

  /** And that limit is not kept: whatever it is, every start of a job that is not active adds
      to them, since `start` does not check it. */
  lemma StartIgnoresTheLimit(cfg: Config, s: Sys, id: Id, now: Time)
    requires Wf(s) && id in s.core.store.jobs && !Terminal(s.core.store.jobs[id].status)
    requires s.core.store.jobs[id].status !in ACTIVE_STATUSES
    ensures var chat := s.core.store.jobs[id].origin.chat;
            |Members(Apply(cfg, s, Start(id, now)).core.store, Busy, chat)| == |Members(s.core.store, Busy, chat)| + 1
  {
    var chat := s.core.store.jobs[id].origin.chat;
    var started := Put(s.core.store, WithStatus(s.core.store.jobs[id], Running, now));
    assert Members(started, Busy, chat) == Members(s.core.store, Busy, chat) + {id};
    assert StartCallSpec(s, id, now).core.store == started;
  }

  /** The operation, cut short or not, saves a job of the chat in the group that was outside it:
      an `enqueue`, or a start that gets to its save. */
  predicate Joins(s: Sys, op: Op, g: Group, chat: int) {
    match CallOf(op)
    case Direct(Enqueue(id, _)) => g.Waiting? && Outside(s.core.store, id, g, chat)
    case Start(id, _) => g.Busy? && Outside(s.core.store, id, g, chat) && Startable(s.core.store, id)
    case StartBackground(id, _) =>
      g.Busy? && Outside(s.core.store, id, g, chat) && Startable(s.core.store, id) && !LiveTask(s, id)
    case _ => false
  }

  predicate Outside(store: Store, id: Id, g: Group, chat: int) {
    id in store.jobs && store.jobs[id].origin.chat == chat && store.jobs[id].status !in StatusesOf(g)
  }

  lemma OneMoreMember(store: Store, job: Job, g: Group, chat: int)
    requires ValidStore(store) && Outside(store, job.id, g, chat)
    requires job.origin == store.jobs[job.id].origin && job.status in StatusesOf(g)
    ensures |Members(Put(store, job), g, chat)| == |Members(store, g, chat)| + 1
  {
    assert Members(Put(store, job), g, chat) == Members(store, g, chat) + {job.id};
  }

  lemma JoinsGrow(cfg: Config, s: Sys, op: Op, g: Group, chat: int)
    requires Wf(s) && Joins(s, op, g, chat)
    ensures |Members(Apply(cfg, s, op).core.store, g, chat)| == |Members(s.core.store, g, chat)| + 1
  {
    StoreAfter(cfg, s, op);
    OneMoreMember(s.core.store, SavedRecord(cfg, s, CallOf(op)).value, g, chat);
  }

  lemma OnlyJoiningGrows(cfg: Config, s: Sys, op: Op, g: Group, chat: int)
    requires Wf(s) && !Joins(s, op, g, chat) && BringsIn(RightOf(op), s.core.store, g, chat)
    ensures Apply(cfg, s, op).core.store == s.core.store
  {
    StoreAfter(cfg, s, op);
  }

  /** One operation takes a chat over a limit it keeps if and only if it joins one more job to
      a full group; `create_job` never does. */
  lemma LimitLostIff(cfg: Config, s: Sys, op: Op, g: Group, chat: int)
    requires Wf(s) && |Members(s.core.store, g, chat)| <= LimitOf(cfg, g)
    ensures |Members(Apply(cfg, s, op).core.store, g, chat)| <= LimitOf(cfg, g)
       <==> !(Joins(s, op, g, chat) && |Members(s.core.store, g, chat)| == LimitOf(cfg, g))
  {
    if Joins(s, op, g, chat) {
      JoinsGrow(cfg, s, op, g, chat);
    } else if BringsIn(RightOf(op), s.core.store, g, chat) {
      OnlyJoiningGrows(cfg, s, op, g, chat);
    } else {
      StepEffect(cfg, s, op);
      GroupGrowth(cfg, RightOf(op), s.core.store, Apply(cfg, s, op).core.store, g, chat);
    }
  }

  /** A run keeps a chat within a limit in every state if and only if no `enqueue` or start of
      the run joins a job to a full group. */
  lemma LimitKeptIff(cfg: Config, ops: seq<Op>, g: Group, chat: int)
    requires LimitOf(cfg, g) >= 0
    ensures Always(cfg, INIT, ops, (s: Sys) => |Members(s.core.store, g, chat)| <= LimitOf(cfg, g))
       <==> Never(cfg, INIT, ops, (s: Sys, op: Op) =>
              Joins(s, op, g, chat) && |Members(s.core.store, g, chat)| == LimitOf(cfg, g))
  {
    var p := (s: Sys) => |Members(s.core.store, g, chat)| <= LimitOf(cfg, g);
    var q := (s: Sys, op: Op) => Joins(s, op, g, chat) && |Members(s.core.store, g, chat)| == LimitOf(cfg, g);
    assert Members(EMPTY_STORE, g, chat) == {};
    forall s, op | Wf(s) && p(s)
      ensures p(Apply(cfg, s, op)) <==> !q(s, op)
    {
      LimitLostIff(cfg, s, op, g, chat);
    }
    AlwaysIffNever(cfg, INIT, ops, p, q);
  }

  /* ---- the records themselves ---- */

  ghost predicate AllConsistent(s: Store) { forall id :: id in s.jobs ==> Consistent(s.jobs[id]) }

  /** The operation creates no job in RUNNING or a terminal status, as no caller does. */
  predicate CreatesOpen(op: Op) {
    RightOf(op).MayCreate? ==> !RightOf(op).job.status.Running? && !Terminal(RightOf(op).job.status)
  }

  lemma StoreStepKeepsConsistent(cfg: Config, right: Right, a: Store, b: Store)
    requires StoreStep(cfg, right, a, b) && AllConsistent(a)
    requires right.MayCreate? ==> !right.job.status.Running? && !Terminal(right.job.status)
    ensures AllConsistent(b)
  {
    forall id | id in b.jobs
      ensures Consistent(b.jobs[id])
    {
      if id in a.jobs {
        assert JobStep(right, a.jobs[id], b.jobs[id]);
      } else {
        assert NewJobStep(cfg, right, a, b.jobs[id]);
      }
    }
  }

  /** In every run, whatever interleaves, a RUNNING record has its start, a terminal one its
      end, and a DONE one its result. */
  lemma {:induction false} RecordsAreConsistent(cfg: Config, ops: seq<Op>)
    requires forall op :: op in ops ==> CreatesOpen(op)
    ensures AllConsistent(Reached(cfg, ops).core.store)
  {
    if ops != [] {
      var front, op := ops[..|ops| - 1], ops[|ops| - 1];
      RecordsAreConsistent(cfg, front);
      assert CreatesOpen(op);
      StepEffect(cfg, Reached(cfg, front), op);
      StoreStepKeepsConsistent(cfg, RightOf(op), Reached(cfg, front).core.store,
                               Apply(cfg, Reached(cfg, front), op).core.store);
    }
  }

  /* ---- restart ---- */

  lemma RecoveryCall(cfg: Config, s: Sys, reason: string, now: Time)
    requires Wf(s)
    ensures var s', store := Apply(cfg, s, Direct(Recover(reason, now))), s.core.store;
            && s'.runs == s.runs && s'.cancels == s.cancels && s'.core.background == s.core.background
            && s'.core.store.jobs.Keys == store.jobs.Keys
            && (forall id :: id in store.jobs ==>
                  s'.core.store.jobs[id]
                      == RecoveredRecord(store.jobs[id], store.jobs[id].status in ACTIVE_STATUSES, reason, now))
            && (forall id :: id in s'.core.store.jobs ==> s'.core.store.jobs[id].status !in ACTIVE_STATUSES)
  {
    RecoverEffect(s.core, reason, now);
  }

  /** Restart without recovery. */
  lemma RestartCall(cfg: Config, s: Sys)
    requires Wf(s)
    ensures var s' := Apply(cfg, s, Restart);
            && Wf(s') && s'.core.store == s.core.store
            && s'.runs == map[] && s'.cancels == map[] && s'.core.background == map[]
  {
  }

  /** After a restart and a recovery nothing is suspended, no job is RUNNING or WAITING_USER,
      those that were need review, and every other record is as it was. */
  lemma RecoveredAfterRestart(cfg: Config, s: Sys, reason: string, now: Time)
    requires Wf(s)
    ensures var restarted := Apply(cfg, s, Restart);
            && Wf(restarted)
            && (var s' := Apply(cfg, restarted, Direct(Recover(reason, now)));
                && s'.runs == map[] && s'.cancels == map[] && s'.core.background == map[]
                && s'.core.store.jobs.Keys == s.core.store.jobs.Keys
                && (forall id :: id in s.core.store.jobs ==>
                      var job := s.core.store.jobs[id];
                      s'.core.store.jobs[id] == RecoveredRecord(job, job.status in ACTIVE_STATUSES, reason, now))
                && (forall id :: id in s'.core.store.jobs ==> s'.core.store.jobs[id].status !in ACTIVE_STATUSES))
  {
    RestartCall(cfg, s);
    RecoveryCall(cfg, Apply(cfg, s, Restart), reason, now);
  }
}
