/** Value models of the agent runtime (src/agent_runtime/models.py). */
module Jobs {
  import opened Common

  /** The 128-bit value of the uuid4 a job id is made of. */
  type Id = nat
  type Time = int

  datatype Status =
    | Draft | AwaitingInput | Queued | Running | WaitingUser
    | Done | Failed | Canceled | NeedsReview

  predicate Terminal(s: Status) {
    s.Done? || s.Failed? || s.Canceled? || s.NeedsReview?
  }

  /** What a worker hands back; the other capsule fields are only rendered. */
  datatype Capsule = Capsule(summary: string, memoryCandidates: seq<string>, artifacts: seq<string>)

  /** The fields of a job that no operation ever changes. */
  datatype Origin = Origin(owner: int, chat: int, source: string, fingerprint: string, kind: string, worker: string)

  datatype Job = Job(
    id: Id, origin: Origin, status: Status,
    followups: seq<string>, artifacts: seq<string>,
    result: Option<Capsule>, error: string,
    createdAt: Time, startedAt: Option<Time>, finishedAt: Option<Time>, updatedAt: Time)

  function NewJob(id: Id, origin: Origin, status: Status, now: Time): Job {
    Job(id, origin, status, [], [], None, "", now, None, None, now)
  }

  /** A new job has nothing attached, no result and no history. */
  lemma NewJobMeans(id: Id, origin: Origin, status: Status, now: Time)
    ensures var j := NewJob(id, origin, status, now);
            && j.id == id && j.origin == origin && j.status == status
            && j.followups == [] && j.artifacts == [] && j.result == None && j.error == ""
            && j.createdAt == now && j.updatedAt == now && j.startedAt == None && j.finishedAt == None
  {
  }

  /** AgentJob.with_status: a copy with the lifecycle timestamps moved along. */
  function WithStatus(j: Job, s: Status, now: Time, error: string := "", result: Option<Capsule> := None): Job {
    j.(status := s,
    updatedAt := now,
    startedAt := if s.Running? && j.startedAt.None? then Some(now) else j.startedAt,
    finishedAt := if Terminal(s) then Some(now) else j.finishedAt,
    error := if error != "" then error else j.error,
    result := if result.Some? then result else j.result)
  }

  /** The four statuses in which a job is finished. */
  lemma TerminalMeans(s: Status)
    ensures Terminal(s) <==> s !in {Draft, AwaitingInput, Queued, Running, WaitingUser}
    ensures Terminal(s) <==> s in {Done, Failed, Canceled, NeedsReview}
  {
  }

  /** What a copy in another status says: the first start is kept, each end is stamped anew, a
      message or result replaces the one before, and nothing else changes. */
  lemma WithStatusMeans(j: Job, s: Status, now: Time, error: string, result: Option<Capsule>)
    ensures var k := WithStatus(j, s, now, error, result);
            && k.status == s && k.updatedAt == now
            && (s == Running && j.startedAt == None ==> k.startedAt == Some(now))
            && (s != Running || j.startedAt != None ==> k.startedAt == j.startedAt)
            && (k.finishedAt == if s in {Done, Failed, Canceled, NeedsReview} then Some(now) else j.finishedAt)
            && (error == "" ==> k.error == j.error) && (error != "" ==> k.error == error)
            && (result == None ==> k.result == j.result) && (result != None ==> k.result == result)
            && k.id == j.id && k.origin == j.origin && k.createdAt == j.createdAt
            && k.followups == j.followups && k.artifacts == j.artifacts
  {
  }

  /** A RUNNING record says when it started, a terminal one when it finished, a DONE one what
      came out. */
  predicate Consistent(j: Job) {
    && (j.status.Running? ==> j.startedAt.Some?)
    && (Terminal(j.status) ==> j.finishedAt.Some?)
    && (j.status.Done? ==> j.result.Some?)
  }

  datatype EventKind =
    | CREATED | STARTED | PROGRESS | FOLLOWUP_ATTACHED | ARTIFACT_ATTACHED
    | COMPLETED | FAILED | CANCELED | RECOVERED | MEMORY_STAGED

  datatype Event = Event(jobId: Id, kind: EventKind, message: string)

  function OfJob(id: Id): Event -> bool { (e: Event) => e.jobId == id }

  /** The event kinds that accompany a status change. */
  predicate Lifecycle(k: EventKind) {
    k.CREATED? || k.STARTED? || k.COMPLETED? || k.FAILED? || k.CANCELED? || k.RECOVERED?
  }
}
