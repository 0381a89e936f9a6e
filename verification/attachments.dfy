/** What becomes of the follow-ups and artifacts attached to a job: some operations write back
    a record that a coroutine has held since before an await. */
module Attachments {
  import opened Common
  import opened Jobs
  import opened JobStore
  import opened Runtime
  import opened Protocol
  import opened Saves

  /** What is attached to a job, in order; the same text may be attached again. */
  datatype Lists = Lists(followups: seq<string>, artifacts: seq<string>)

  function ListsOf(j: Job): Lists { Lists(j.followups, j.artifacts) }

  /** All of `x` is still at the head of the record's lists. */
  predicate Carries(j: Job, x: Lists) { x.followups <= j.followups && x.artifacts <= j.artifacts }

  ghost predicate Carried(s: Sys, id: Id, x: Lists) {
    id in s.core.store.jobs && Carries(s.core.store.jobs[id], x)
  }

  /** The held record that the operation writes over the job's current one: the one a run
      started from, when it returns to an unfinished job or times out, and the one a `cancel`
      read before it awaited the worker. */
  function WrittenBack(s: Sys, op: Op, id: Id): Option<Job> {
    match CallOf(op)
    case OfRun(r, WorkerEnds(o, _)) =>
      if r in s.runs && s.runs[r].phase.Working? && s.runs[r].running.id == id && id in s.core.store.jobs
         && (o.TimedOut? || (o.Returned? && !Terminal(s.core.store.jobs[id].status)))
      then Some(s.runs[r].running) else None
    case CancelResumes(k, _) =>
      if k in s.cancels && s.cancels[k].job.id == id then Some(s.cancels[k].job) else None
    case _ => None
  }

  /** The operation writes back a record that lacks some of `x`. */
  predicate Loses(s: Sys, op: Op, id: Id, x: Lists) {
    WrittenBack(s, op, id).Some? && !Carries(WrittenBack(s, op, id).value, x)
  }

  /** What is saved of the job, if anything: the lists of the held record, or else the current
      ones, at most with something more attached. */
  predicate SavesLists(store: Store, record: Option<Job>, held: Option<Job>, id: Id)
    requires id in store.jobs
  {
    if held.Some? then record.Some? && record.value.id == id && ListsOf(record.value) == ListsOf(held.value)
    else record.Some? && record.value.id == id ==> Carries(record.value, ListsOf(store.jobs[id]))
  }

  lemma DirectLists(store: Store, call: DirectOp, id: Id)
    requires ValidStore(store) && id in store.jobs
    ensures SavesLists(store, SavedByDirect(store, call), None, id)
  {
  }

  lemma SavedLists(cfg: Config, s: Sys, op: Op, id: Id)
    requires Wf(s) && id in s.core.store.jobs && !op.Torn?
    ensures SavesLists(s.core.store, SavedRecord(cfg, s, op), WrittenBack(s, op, id), id)
  {
    if op.Direct? {
      DirectLists(s.core.store, op.call, id);
    }
  }

  lemma ListsAfterSave(store: Store, record: Option<Job>, held: Option<Job>, id: Id)
    requires id in store.jobs && SavesLists(store, record, held, id)
    ensures var after := Saved(store, record).jobs;
            && id in after
            && (held.Some? ==> ListsOf(after[id]) == ListsOf(held.value))
            && (held.None? ==> Carries(after[id], ListsOf(store.jobs[id])))
  {
  }

  lemma RecoveryKeepsLists(cfg: Config, s: Sys, op: Op, id: Id)
    requires Wf(s) && id in s.core.store.jobs && Recovers(op)
    ensures id in Apply(cfg, s, op).core.store.jobs && WrittenBack(s, op, id).None?
    ensures ListsOf(Apply(cfg, s, op).core.store.jobs[id]) == ListsOf(s.core.store.jobs[id])
  {
    StoreAfterRecovery(cfg, s, op);
  }

  /** What an operation does to the lists of a job. */
  lemma ListsAfter(cfg: Config, s: Sys, op: Op, id: Id)
    requires Wf(s) && id in s.core.store.jobs
    ensures var held, after := WrittenBack(s, op, id), Apply(cfg, s, op).core.store.jobs;
            && id in after
            && (held.Some? ==> ListsOf(after[id]) == ListsOf(held.value))
            && (held.None? ==> Carries(after[id], ListsOf(s.core.store.jobs[id])))
  {
    if Recovers(op) {
      RecoveryKeepsLists(cfg, s, op, id);
    } else {
      CallLists(cfg, s, op, id);
    }
  }

  lemma CallLists(cfg: Config, s: Sys, op: Op, id: Id)
    requires Wf(s) && id in s.core.store.jobs && !Recovers(op)
    ensures var held, after := WrittenBack(s, op, id), Apply(cfg, s, op).core.store.jobs;
            && id in after
            && (held.Some? ==> ListsOf(after[id]) == ListsOf(held.value))
            && (held.None? ==> Carries(after[id], ListsOf(s.core.store.jobs[id])))
  {
    StoreAfter(cfg, s, op);
    if !CallOf(op).Torn? {
      SavedLists(cfg, s, CallOf(op), id);
    }
    ListsAfterSave(s.core.store, SavedRecord(cfg, s, CallOf(op)), WrittenBack(s, op, id), id);
  }

  /** What is attached stays attached through one operation if and only if the operation does
      not write back a held record that lacks some of it. */
  lemma AttachmentKeptIff(cfg: Config, s: Sys, op: Op, id: Id, x: Lists)
    requires Wf(s) && Carried(s, id, x)
    ensures Carried(Apply(cfg, s, op), id, x) <==> !Loses(s, op, id, x)
  {
    ListsAfter(cfg, s, op, id);
  }

  /** It stays through a whole run, whatever interleaves, if and only if no operation of the run
      does that. */
  lemma AttachmentLastsIff(cfg: Config, s: Sys, ops: seq<Op>, id: Id, x: Lists)
    requires Wf(s) && Carried(s, id, x)
    ensures Always(cfg, s, ops, (t: Sys) => Carried(t, id, x))
       <==> Never(cfg, s, ops, (t: Sys, op: Op) => Loses(t, op, id, x))
  {
    var p, q := (t: Sys) => Carried(t, id, x), (t: Sys, op: Op) => Loses(t, op, id, x);
    forall t, op | Wf(t) && p(t)
      ensures p(Apply(cfg, t, op)) <==> !q(t, op)
    {
      AttachmentKeptIff(cfg, t, op, id, x);
    }
    AlwaysIffNever(cfg, s, ops, p, q);
  }

  datatype Attachment = Followup(text: string) | Artifact(text: string)

  function Attach(id: Id, a: Attachment): Op {
    Direct(if a.Followup? then AttachFollowup(id, a.text) else AttachArtifact(id, a.text))
  }

  function Extended(x: Lists, a: Attachment): Lists {
    if a.Followup? then x.(followups := x.followups + [a.text]) else x.(artifacts := x.artifacts + [a.text])
  }

  lemma NotedRecord(cfg: Config, s: Sys, id: Id, a: Attachment)
    requires Wf(s) && Startable(s.core.store, id)
    ensures var noted := Apply(cfg, s, Attach(id, a));
            && Wf(noted) && noted.runs == s.runs && Startable(noted.core.store, id)
            && ListsOf(noted.core.store.jobs[id]) == Extended(ListsOf(s.core.store.jobs[id]), a)
  {
    StepKeepsWf(cfg, s, Attach(id, a));
    StoreAfter(cfg, s, Attach(id, a));
  }

  /** What is attached to an unfinished job, also while its worker runs and also when it was
      attached before, is added to its list, and the list lasts through any run under the same
      condition. */
  lemma AttachedDuringRun(cfg: Config, s: Sys, id: Id, a: Attachment, ops: seq<Op>)
    requires Wf(s) && Startable(s.core.store, id)
    ensures var attached, x := Apply(cfg, s, Attach(id, a)), Extended(ListsOf(s.core.store.jobs[id]), a);
            && Wf(attached) && id in attached.core.store.jobs && ListsOf(attached.core.store.jobs[id]) == x
            && (Always(cfg, attached, ops, (t: Sys) => Carried(t, id, x))
                <==> Never(cfg, attached, ops, (t: Sys, op: Op) => Loses(t, op, id, x)))
  {
    NotedRecord(cfg, s, id, a);
    AttachmentLastsIff(cfg, Apply(cfg, s, Attach(id, a)), ops, id, Extended(ListsOf(s.core.store.jobs[id]), a));
  }

  /** The lists of the record a finished run leaves: a result for an unfinished job and a timeout
      restore those the run started with, every other end keeps the current ones. */
  lemma AttachmentsAfterRun(cfg: Config, s: Sys, r: nat, o: Outcome, now: Time)
    requires Wf(s) && r in s.runs && s.runs[r].phase.Working?
    ensures var id, before := s.runs[r].running.id, s.core.store.jobs;
            var after := Apply(cfg, s, OfRun(r, WorkerEnds(o, now))).core.store.jobs;
            && id in before && id in after
            && (var source := if o.TimedOut? || (o.Returned? && !Terminal(before[id].status))
                                then s.runs[r].running else before[id];
                ListsOf(after[id]) == ListsOf(source))
  {
    assert RunHeld(s.core.store, s.runs[r]);
    EndSavesOne(cfg, s, r, o, now);
  }

  lemma StartedRecord(cfg: Config, s: Sys, id: Id, now: Time)
    requires Wf(s) && Startable(s.core.store, id) && s.core.store.jobs[id].origin.worker in s.core.workers
    ensures var running, started := WithStatus(s.core.store.jobs[id], Running, now), Apply(cfg, s, Start(id, now));
            && Wf(started) && started.runs == s.runs[s.nextRun := Run(running, Working)]
            && id in started.core.store.jobs && started.core.store.jobs[id] == running
  {
    StepKeepsWf(cfg, s, Start(id, now));
    StoreAfter(cfg, s, Start(id, now));
  }

  /** A worker that starts, gets something attached and returns: whatever it is, and also when
      the same text was attached before, the lists are afterwards what they were. */
  lemma AttachedAndReturned(cfg: Config, s: Sys, id: Id, a: Attachment, capsule: Capsule, t: Time, u: Time)
    requires Wf(s) && Startable(s.core.store, id) && s.core.store.jobs[id].origin.worker in s.core.workers
    ensures var x, started := ListsOf(s.core.store.jobs[id]), Apply(cfg, s, Start(id, t));
            && Wf(started)
            && (var noted := Apply(cfg, started, Attach(id, a));
                && Wf(noted) && Carried(noted, id, Extended(x, a))
                && (var jobs := Apply(cfg, noted, OfRun(s.nextRun, WorkerEnds(Returned(capsule), u))).core.store.jobs;
                    id in jobs && ListsOf(jobs[id]) == x))
  {
    StartedRecord(cfg, s, id, t);
    var started := Apply(cfg, s, Start(id, t));
    NotedRecord(cfg, started, id, a);
    AttachmentsAfterRun(cfg, Apply(cfg, started, Attach(id, a)), s.nextRun, Returned(capsule), u);
  }
}
