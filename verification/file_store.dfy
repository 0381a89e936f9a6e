/** FileAgentJobStore (src/agent_runtime/storage.py) on a disk that can stop at any step.

    A save writes the record to `<id>.tmp` and renames that file to `<id>.json`; only the
    rename is atomic. The disk is a map from file names, of some type N, to their text. */
module FileStore {
  import opened Common
  import opened Jobs
  import opened JobStore
  import opened Runtime

  type Disk<N> = map<N, string>

  /** The names of a job's two files, which names a listing finds, and the JSON text of a
      record with the way it is read back. */
  datatype Format<!N(!new)> = Format(path: Id -> N, tmp: Id -> N, listed: N -> bool,
                           encode: Job -> string, decode: string -> Option<Job>) {
    ghost predicate Sound() {
      && (forall a, b :: path(a) == path(b) ==> a == b)
      && (forall a :: listed(path(a)))
      && (forall a :: !listed(tmp(a)))
      && (forall j :: decode(encode(j)) == Some(j))
    }
  }

  const JSON_SUFFIX := ".json"
  const TMP_SUFFIX := ".tmp"

  /** What glob("*.json") matches. */
  predicate EndsInJson(name: string) {
    |name| >= |JSON_SUFFIX| && name[|name| - |JSON_SUFFIX|..] == JSON_SUFFIX
  }

  /** The names the store uses: `<stem>.json`, and `<stem>.tmp` by with_suffix. */
  function SourceFormat(stem: Id -> string, encode: Job -> string, decode: string -> Option<Job>): Format<string> {
    Format((id: Id) => stem(id) + JSON_SUFFIX, (id: Id) => stem(id) + TMP_SUFFIX, EndsInJson, encode, decode)
  }

  lemma SuffixFacts(stem: string)
    ensures EndsInJson(stem + JSON_SUFFIX) && !EndsInJson(stem + TMP_SUFFIX)
    ensures (stem + JSON_SUFFIX)[..|stem + JSON_SUFFIX| - |JSON_SUFFIX|] == stem
  {
    var p, t := stem + JSON_SUFFIX, stem + TMP_SUFFIX;
    assert p[|p| - |JSON_SUFFIX|..] == JSON_SUFFIX;
    assert t[|t| - 1] == 'p' && JSON_SUFFIX[|JSON_SUFFIX| - 1] == 'n';
    assert |t| >= |JSON_SUFFIX| ==> t[|t| - |JSON_SUFFIX|..][|JSON_SUFFIX| - 1] == t[|t| - 1];
  }

  /** With distinct stems and JSON that reads back, these names keep records apart and
      temporary files out of every listing. */
  lemma SourceFormatIsSound(stem: Id -> string, encode: Job -> string, decode: string -> Option<Job>)
    requires forall a, b :: stem(a) == stem(b) ==> a == b
    requires forall j :: decode(encode(j)) == Some(j)
    ensures SourceFormat(stem, encode, decode).Sound()
    ensures forall a :: SourceFormat(stem, encode, decode).path(a) == stem(a) + ".json"
    ensures forall a :: SourceFormat(stem, encode, decode).tmp(a) == stem(a) + ".tmp"
  {
    var f := SourceFormat(stem, encode, decode);
    forall a
      ensures f.listed(f.path(a)) && !f.listed(f.tmp(a)) && f.path(a)[..|f.path(a)| - |JSON_SUFFIX|] == stem(a)
    {
      SuffixFacts(stem(a));
    }
  }

  /** The disk holds exactly the records of `m`: every id reads as its whole record, and the
      listing contains the paths of these ids and nothing else. */
  ghost predicate Holds<N(!new)>(f: Format<N>, d: Disk<N>, m: map<Id, Job>) {
    && (forall id :: id in m <==> f.path(id) in d)
    && (forall id :: id in m ==> f.decode(d[f.path(id)]) == Some(m[id]) && m[id].id == id)
    && (forall name :: name in d && f.listed(name) ==> exists id :: id in m && name == f.path(id))
  }

  /* ---- one save, stopped anywhere ---- */

  /** The number of disk steps of a save: truncate the tmp file, append each character, rename. */
  function SaveSteps<N(!new)>(f: Format<N>, job: Job): nat { |f.encode(job)| + 2 }

  function Rename<N(==)>(d: Disk<N>, from: N, to: N): Disk<N>
    requires from in d
  {
    (d - {from})[to := d[from]]
  }

  /** The disk after the first `k` steps of save. */
  function SaveUpTo<N(!new, ==)>(f: Format<N>, d: Disk<N>, job: Job, k: nat): Disk<N>
    requires k <= SaveSteps(f, job)
  {
    var text := f.encode(job);
    if k == 0 then d
    else if k <= |text| + 1 then d[f.tmp(job.id) := text[..k - 1]]
    else Rename(d[f.tmp(job.id) := text], f.tmp(job.id), f.path(job.id))
  }

  /** A save that stops before the rename leaves every record as it was; one that gets past
      it has replaced exactly this record. No state in between can be read. */
  lemma SaveIsAtomic<N(!new)>(f: Format<N>, d: Disk<N>, m: map<Id, Job>, job: Job, k: nat)
    requires f.Sound() && Holds(f, d, m) && k <= SaveSteps(f, job)
    ensures Holds(f, SaveUpTo(f, d, job, k), if k < SaveSteps(f, job) then m else m[job.id := job])
  {
    var d' := SaveUpTo(f, d, job, k);
    assert forall id :: f.path(id) != f.tmp(job.id);
    if k < SaveSteps(f, job) {
      forall name | name in d' && f.listed(name)
        ensures exists id :: id in m && name == f.path(id)
      {
        assert name in d;
      }
    } else {
      var m' := m[job.id := job];
      forall name | name in d' && f.listed(name)
        ensures exists id :: id in m' && name == f.path(id)
      {
        if name == f.path(job.id) {
          assert job.id in m';
        } else {
          assert name in d;
          var id :| id in m && name == f.path(id);
          assert id in m';
        }
      }
    }
  }

  /* ---- any sequence of saves, any of them cut short ---- */

  /** `steps` disk steps of saving `job`; fewer than all of them is a crash. */
  datatype Attempt = Attempt(job: Job, steps: nat)

  ghost predicate Possible<N(!new)>(f: Format<N>, attempts: seq<Attempt>) {
    forall a :: a in attempts ==> a.steps <= SaveSteps(f, a.job)
  }

  function DiskAfter<N(!new, ==)>(f: Format<N>, d: Disk<N>, attempts: seq<Attempt>): Disk<N>
    requires Possible(f, attempts)
  {
    if attempts == [] then d
    else
      var last := attempts[|attempts| - 1];
      SaveUpTo(f, DiskAfter(f, d, attempts[..|attempts| - 1]), last.job, last.steps)
  }

  /** The in-memory map under the attempts that reached their rename. */
  function MapAfter<N(!new)>(f: Format<N>, m: map<Id, Job>, attempts: seq<Attempt>): map<Id, Job> {
    if attempts == [] then m
    else
      var last, before := attempts[|attempts| - 1], MapAfter(f, m, attempts[..|attempts| - 1]);
      if last.steps < SaveSteps(f, last.job) then before else before[last.job.id := last.job]
  }

  /** With crashes at arbitrary disk steps, what can be read back is always the in-memory map
      under exactly the saves that were not cut short. */
  lemma {:induction false} DiskRefinesMap<N(!new)>(f: Format<N>, d: Disk<N>, m: map<Id, Job>, attempts: seq<Attempt>)
    requires f.Sound() && Holds(f, d, m) && Possible(f, attempts)
    ensures Holds(f, DiskAfter(f, d, attempts), MapAfter(f, m, attempts))
  {
    if attempts != [] {
      var front, last := attempts[..|attempts| - 1], attempts[|attempts| - 1];
      DiskRefinesMap(f, d, m, front);
      SaveIsAtomic(f, DiskAfter(f, d, front), MapAfter(f, m, front), last.job, last.steps);
    }
  }

  /* ---- recovery, itself interrupted ---- */

  predicate Active(job: Job) { job.status in ACTIVE_STATUSES }

  /** The attempts of a recover_running_jobs call that dies during save number `|jobs|`. */
  function RecoveryAttempts<N(!new)>(f: Format<N>, jobs: seq<Job>, reason: string, now: Time,
                                     lastSteps: nat): seq<Attempt> {
    seq(|jobs|, i requires 0 <= i < |jobs| =>
      var job := WithStatus(jobs[i], NeedsReview, now, reason);
      Attempt(job, if i == |jobs| - 1 then lastSteps else SaveSteps(f, job)))
  }

  /** `m'` is `m` with some of its active jobs moved to NEEDS_REVIEW at `now`. */
  ghost predicate PartlyRecovered(m: map<Id, Job>, m': map<Id, Job>, reason: string, now: Time) {
    && m'.Keys == m.Keys
    && (forall id :: id in m ==>
          m'[id] == m[id] || (Active(m[id]) && m'[id] == WithStatus(m[id], NeedsReview, now, reason)))
  }

  function Recovered(m: map<Id, Job>, reason: string, now: Time): map<Id, Job> {
    map id | id in m :: RecoveredRecord(m[id], Active(m[id]), reason, now)
  }

  lemma RecoveryFront<N(!new)>(f: Format<N>, jobs: seq<Job>, reason: string, now: Time, lastSteps: nat)
    requires |jobs| > 1
    ensures var front := jobs[..|jobs| - 1];
            var whole := SaveSteps(f, WithStatus(front[|front| - 1], NeedsReview, now, reason));
            RecoveryAttempts(f, jobs, reason, now, lastSteps)[..|front|]
                == RecoveryAttempts(f, front, reason, now, whole)
  {
  }

  lemma OneMoreRecovered<N(!new)>(f: Format<N>, m: map<Id, Job>, attempts: seq<Attempt>,
                                  job: Job, reason: string, now: Time)
    requires attempts != [] && attempts[|attempts| - 1].job == WithStatus(job, NeedsReview, now, reason)
    requires PartlyRecovered(m, MapAfter(f, m, attempts[..|attempts| - 1]), reason, now)
    requires job.id in m && m[job.id] == job && Active(job)
    ensures PartlyRecovered(m, MapAfter(f, m, attempts), reason, now)
  {
  }

  /** However far a recovery gets before the process dies, it has only moved active jobs. */
  lemma {:induction false} InterruptedRecovery<N(!new)>(f: Format<N>, m: map<Id, Job>, jobs: seq<Job>,
                                                        reason: string, now: Time, lastSteps: nat)
    requires forall j :: j in jobs ==> j.id in m && m[j.id] == j && Active(j)
    ensures PartlyRecovered(m, MapAfter(f, m, RecoveryAttempts(f, jobs, reason, now, lastSteps)), reason, now)
  {
    if jobs != [] {
      var front, last := jobs[..|jobs| - 1], jobs[|jobs| - 1];
      var attempts := RecoveryAttempts(f, jobs, reason, now, lastSteps);
      assert last in jobs;
      if front != [] {
        InterruptedRecovery(f, m, front, reason, now,
                            SaveSteps(f, WithStatus(front[|front| - 1], NeedsReview, now, reason)));
        RecoveryFront(f, jobs, reason, now, lastSteps);
      } else {
        assert attempts[..|attempts| - 1] == [];
      }
      OneMoreRecovered(f, m, attempts, last, reason, now);
    }
  }

  /** And exactly which: those before the last one it got to, and that one if its save reached the
      rename. */
  ghost predicate MovedExactly<N(!new)>(f: Format<N>, m: map<Id, Job>, m': map<Id, Job>, front: seq<Job>, last: Job,
                                        reason: string, now: Time, lastSteps: nat) {
    && m'.Keys == m.Keys
    && (forall id :: id in m ==>
          var moved := WithStatus(m[id], NeedsReview, now, reason);
          m'[id] == if m[id] in front || (m[id] == last && lastSteps >= SaveSteps(f, moved)) then moved else m[id])
  }

  /** Every one of the jobs was moved, and no other. */
  ghost predicate AllMoved(m: map<Id, Job>, m': map<Id, Job>, jobs: seq<Job>, reason: string, now: Time) {
    && m'.Keys == m.Keys
    && (forall id :: id in m ==>
          m'[id] == if m[id] in jobs then WithStatus(m[id], NeedsReview, now, reason) else m[id])
  }

  lemma MovedWhole<N(!new)>(f: Format<N>, m: map<Id, Job>, m': map<Id, Job>, front: seq<Job>, last: Job,
                            reason: string, now: Time)
    requires MovedExactly(f, m, m', front, last, reason, now, SaveSteps(f, WithStatus(last, NeedsReview, now, reason)))
    ensures AllMoved(m, m', front + [last], reason, now)
  {
  }

  lemma OneMoreExactly<N(!new)>(f: Format<N>, m: map<Id, Job>, before: map<Id, Job>, front: seq<Job>, last: Job,
                                reason: string, now: Time, lastSteps: nat)
    requires AllMoved(m, before, front, reason, now)
    requires last.id in m && m[last.id] == last && forall id :: id in m ==> m[id].id == id
    ensures var moved := WithStatus(last, NeedsReview, now, reason);
            MovedExactly(f, m, if lastSteps < SaveSteps(f, moved) then before else before[last.id := moved],
                         front, last, reason, now, lastSteps)
  {
  }

  lemma {:induction false} InterruptedExactly<N(!new)>(f: Format<N>, m: map<Id, Job>, jobs: seq<Job>,
                                                       reason: string, now: Time, lastSteps: nat)
    requires forall id :: id in m ==> m[id].id == id
    requires jobs != [] && forall j :: j in jobs ==> j.id in m && m[j.id] == j
    ensures MovedExactly(f, m, MapAfter(f, m, RecoveryAttempts(f, jobs, reason, now, lastSteps)),
                         jobs[..|jobs| - 1], jobs[|jobs| - 1], reason, now, lastSteps)
  {
    var front, last := jobs[..|jobs| - 1], jobs[|jobs| - 1];
    var attempts := RecoveryAttempts(f, jobs, reason, now, lastSteps);
    assert last in jobs && jobs == front + [last];
    var before := MapAfter(f, m, attempts[..|attempts| - 1]);
    if front == [] {
      assert attempts[..|attempts| - 1] == [];
    } else {
      var most, next := front[..|front| - 1], front[|front| - 1];
      assert front == most + [next];
      RecoveryFront(f, jobs, reason, now, lastSteps);
      InterruptedExactly(f, m, front, reason, now, SaveSteps(f, WithStatus(next, NeedsReview, now, reason)));
      MovedWhole(f, m, before, most, next, reason, now);
    }
    OneMoreExactly(f, m, before, front, last, reason, now, lastSteps);
  }

  /** The same on the disk: what can be read after the interruption is such a map. */
  lemma InterruptedRecoveryOnDisk<N(!new)>(f: Format<N>, d: Disk<N>, m: map<Id, Job>, jobs: seq<Job>,
                                           reason: string, now: Time, lastSteps: nat)
    requires f.Sound() && Holds(f, d, m)
    requires forall j :: j in jobs ==> j.id in m && m[j.id] == j && Active(j)
    requires jobs != [] ==> lastSteps <= SaveSteps(f, WithStatus(jobs[|jobs| - 1], NeedsReview, now, reason))
    ensures var attempts := RecoveryAttempts(f, jobs, reason, now, lastSteps);
            && Possible(f, attempts)
            && Holds(f, DiskAfter(f, d, attempts), MapAfter(f, m, attempts))
            && PartlyRecovered(m, MapAfter(f, m, attempts), reason, now)
  {
    InterruptedRecovery(f, m, jobs, reason, now, lastSteps);
    DiskRefinesMap(f, d, m, RecoveryAttempts(f, jobs, reason, now, lastSteps));
  }

  /** A recovery that dies anywhere and is run again leaves no RUNNING or WAITING_USER job
      and has changed no other. */
  lemma RecoveryAfterCrash(m: map<Id, Job>, m1: map<Id, Job>, reason1: string, now1: Time, reason2: string, now2: Time)
    requires PartlyRecovered(m, m1, reason1, now1)
    ensures var m2 := Recovered(m1, reason2, now2);
            && m2.Keys == m.Keys
            && (forall id :: id in m2 ==> !Active(m2[id]))
            && (forall id :: id in m && !Active(m[id]) ==> m2[id] == m[id])
            && (forall id :: id in m && Active(m[id]) ==>
                  m2[id] == WithStatus(m[id], NeedsReview, now1, reason1)
                      || m2[id] == WithStatus(m[id], NeedsReview, now2, reason2))
  {
  }

  /** On the disk `d2`, the record of each id of `m` is whole, not active, and the old one unless
      that was active; nothing else is stored. */
  ghost predicate RecoveredOnDisk<N(!new)>(f: Format<N>, d2: Disk<N>, m: map<Id, Job>, reason1: string, now1: Time,
                                           reason2: string, now2: Time) {
    && (forall id :: f.path(id) in d2 <==> id in m)
    && (forall name :: name in d2 && f.listed(name) ==> exists id :: id in m && name == f.path(id))
    && (forall id :: id in m ==>
          var read := f.decode(d2[f.path(id)]);
          && read.Some? && !Active(read.value)
          && (if Active(m[id])
              then read.value in {WithStatus(m[id], NeedsReview, now1, reason1),
                                  WithStatus(m[id], NeedsReview, now2, reason2)}
              else read.value == m[id]))
  }

  /** A disk that holds a second recovery of what an interrupted one left. */
  lemma RecoveryAfterCrashOnDisk<N(!new)>(f: Format<N>, d2: Disk<N>, m: map<Id, Job>, m1: map<Id, Job>,
                                          reason1: string, now1: Time, reason2: string, now2: Time)
    requires PartlyRecovered(m, m1, reason1, now1) && Holds(f, d2, Recovered(m1, reason2, now2))
    ensures RecoveredOnDisk(f, d2, m, reason1, now1, reason2, now2)
  {
    RecoveryAfterCrash(m, m1, reason1, now1, reason2, now2);
    var m2 := Recovered(m1, reason2, now2);
    forall id | id in m
      ensures id in m2 && f.decode(d2[f.path(id)]) == Some(m2[id])
    {
    }
  }

  /* ---- the lookup, against the in-memory store ---- */

  ghost predicate InMap(m: map<Id, Job>, fingerprint: string, j: Job) {
    j.id in m && m[j.id] == j && j.origin.fingerprint == fingerprint
  }

  /** What find_by_fingerprint promises of its result, whatever the listing order. */
  ghost predicate IsPreferred(m: map<Id, Job>, fingerprint: string, r: Option<Job>) {
    match r
    case None => forall j :: !InMap(m, fingerprint, j)
    case Some(best) =>
      && InMap(m, fingerprint, best)
      && (Terminal(best.status) ==> forall j :: InMap(m, fingerprint, j) ==> Terminal(j.status))
      && (forall j :: InMap(m, fingerprint, j) && Terminal(j.status) == Terminal(best.status) ==> !Newer(j, best))
  }

  /** The in-memory lookup keeps the same promise, and when no two matching records carry the
      same timestamps the promise has one answer: both stores find the same record. */
  lemma LookupsAgree(s: Store, fingerprint: string, r: Option<Job>)
    requires ValidStore(s) && IsPreferred(s.jobs, fingerprint, r)
    ensures IsPreferred(s.jobs, fingerprint, Find(s, fingerprint))
    ensures (forall a, b ::
               InMap(s.jobs, fingerprint, a) && InMap(s.jobs, fingerprint, b) && a != b ==> Newer(a, b) || Newer(b, a))
            ==> r == Find(s, fingerprint)
  {
    FindPrefersUnfinished(s, fingerprint);
    var best := Find(s, fingerprint);
    forall j | InMap(s.jobs, fingerprint, j)
      ensures Matches(s, fingerprint, j.id)
    {
    }
    if best.Some? {
      assert InMap(s.jobs, fingerprint, best.value);
    }
  }

  ghost predicate OneEach(jobs: seq<Job>) {
    forall i, j :: 0 <= i < j < |jobs| ==> jobs[i].id != jobs[j].id
  }

  lemma OneEachAppend(jobs: seq<Job>, job: Job)
    requires OneEach(jobs) && forall j :: j in jobs ==> j.id != job.id
    ensures OneEach(jobs + [job])
  {
  }

  /** The records read are those of the names that are no longer left. */
  ghost predicate ReadSoFar<N(!new)>(f: Format<N>, m: map<Id, Job>, left: set<N>, seen: set<Id>, r: seq<Job>) {
    && seen <= m.Keys
    && (forall id :: id in m ==> (id in seen <==> f.path(id) !in left))
    && (forall j: Job :: j in r <==> j.id in seen && m[j.id] == j)
    && OneEach(r)
  }

  lemma ReadOneMore<N(!new)>(f: Format<N>, m: map<Id, Job>, left: set<N>, seen: set<Id>, r: seq<Job>, id: Id)
    requires f.Sound() && ReadSoFar(f, m, left, seen, r)
    requires id in m && m[id].id == id && f.path(id) in left
    ensures ReadSoFar(f, m, left - {f.path(id)}, seen + {id}, r + [m[id]])
  {
    OneEachAppend(r, m[id]);
  }

  class FileAgentJobStore<N(!new, ==)> {
    const format: Format<N>
    var files: Disk<N>

    constructor (format: Format<N>)
      requires format.Sound()
      ensures this.format == format && Holds(format, files, map[])
    {
      this.format := format;
      files := map[];
    }

    method WriteText(name: N, text: string)
      modifies this
      ensures files == old(files)[name := text]
    {
      files := files[name := text];
    }

    method Replace(from: N, to: N)
      requires from in files
      modifies this
      ensures files == Rename(old(files), from, to)
    {
      files := (files - {from})[to := files[from]];
    }

    method Save(job: Job, ghost m: map<Id, Job>)
      requires format.Sound() && Holds(format, files, m)
      modifies this
      ensures files == SaveUpTo(format, old(files), job, SaveSteps(format, job))
      ensures Holds(format, files, m[job.id := job])
    {
      WriteText(format.tmp(job.id), format.encode(job));
      Replace(format.tmp(job.id), format.path(job.id));
      SaveIsAtomic(format, old(files), m, job, SaveSteps(format, job));
    }

    /** None stands for AgentJobNotFoundError. */
    method Get(id: Id, ghost m: map<Id, Job>) returns (r: Option<Job>)
      requires Holds(format, files, m)
      ensures r == if id in m then Some(m[id]) else None
    {
      r := if format.path(id) in files then format.decode(files[format.path(id)]) else None;
    }

    /** Every record on disk, each once; the order is the directory's. */
    method ReadAll(ghost m: map<Id, Job>) returns (r: seq<Job>)
      requires format.Sound() && Holds(format, files, m)
      ensures forall j: Job :: j in r <==> j.id in m && m[j.id] == j
      ensures OneEach(r)
    {
      r := [];
      var names := set name | name in files && format.listed(name);
      ghost var seen: set<Id> := {};
      while names != {}
        invariant names <= files.Keys
        invariant forall name :: name in names ==> format.listed(name)
        invariant ReadSoFar(format, m, names, seen, r)
        decreases names
      {
        var name :| name in names;
        ghost var id :| id in m && name == format.path(id);
        var job := format.decode(files[name]).value;
        ReadOneMore(format, m, names, seen, r, id);
        r := r + [job];
        seen := seen + {id};
        names := names - {name};
      }
    }

    method ListByStatus(statuses: set<Status>, ghost m: map<Id, Job>) returns (r: seq<Job>)
      requires format.Sound() && Holds(format, files, m)
      ensures forall j: Job :: j in r <==> j.id in m && m[j.id] == j && j.status in statuses
      ensures OneEach(r)
    {
      var jobs := ReadAll(m);
      r := [];
      var i := 0;
      while i < |jobs|
        invariant 0 <= i <= |jobs|
        invariant forall j :: j in r <==> j in jobs[..i] && j.status in statuses
        invariant OneEach(r)
      {
        assert jobs[..i + 1] == jobs[..i] + [jobs[i]];
        if jobs[i].status in statuses {
          r := r + [jobs[i]];
        }
        i := i + 1;
      }
      assert jobs[..i] == jobs;
    }

    method FindByFingerprint(fingerprint: string, ghost m: map<Id, Job>) returns (r: Option<Job>)
      requires format.Sound() && Holds(format, files, m)
      ensures IsPreferred(m, fingerprint, r)
    {
      var jobs := ReadAll(m);
      var matches: seq<Job> := [];
      var i := 0;
      while i < |jobs|
        invariant 0 <= i <= |jobs|
        invariant forall j :: j in matches <==> j in jobs[..i] && j.origin.fingerprint == fingerprint
      {
        assert jobs[..i + 1] == jobs[..i] + [jobs[i]];
        if jobs[i].origin.fingerprint == fingerprint {
          matches := matches + [jobs[i]];
        }
        i := i + 1;
      }
      assert jobs[..i] == jobs;
      forall j
        ensures j in matches <==> InMap(m, fingerprint, j)
      {
      }
      PreferredIsNewest(matches);
      r := Preferred(matches);
      assert matches != [] ==> matches[0] in matches;
    }

    method SaveRecovered(job: Job, reason: string, now: Time, ghost m: map<Id, Job>, ghost done: set<Id>)
      requires format.Sound() && job.id in m && m[job.id] == job
      requires Holds(format, files, RecoveredFor(m, done, reason, now))
      modifies this
      ensures Holds(format, files, RecoveredFor(m, done + {job.id}, reason, now))
    {
      RecoverOneMore(m, done, job.id, reason, now);
      Save(WithStatus(job, NeedsReview, now, reason), RecoveredFor(m, done, reason, now));
    }

    method ListActive(ghost m: map<Id, Job>) returns (jobs: seq<Job>)
      requires format.Sound() && Holds(format, files, m)
      ensures forall k :: 0 <= k < |jobs| ==> jobs[k].id in m && m[jobs[k].id] == jobs[k]
      ensures IdsOf(jobs) == ActiveIds(m)
    {
      jobs := ListByStatus(ACTIVE_STATUSES, m);
      assert forall k :: 0 <= k < |jobs| ==> jobs[k] in jobs;
      IdsOfMembers(jobs);
      forall id | id in ActiveIds(m)
        ensures id in IdsOf(jobs)
      {
        assert m[id] in jobs && m[id].id == id;
      }
    }

    /** recover_running_jobs against this store. */
    method RecoverRunningJobs(reason: string, now: Time, ghost m: map<Id, Job>)
      requires format.Sound() && Holds(format, files, m)
      modifies this
      ensures Holds(format, files, Recovered(m, reason, now))
    {
      var jobs := ListActive(m);
      RecoverNone(m, reason, now);
      ghost var done := {};
      var i := 0;
      while i < |jobs|
        invariant 0 <= i <= |jobs|
        invariant done == IdsOf(jobs[..i])
        invariant Holds(format, files, RecoveredFor(m, done, reason, now))
      {
        SaveRecovered(jobs[i], reason, now, m, done);
        done := done + {jobs[i].id};
        IdsOfPrefix(jobs, i);
        i := i + 1;
      }
      IdsOfPrefix(jobs, i);
      RecoverWhole(m, done, reason, now);
    }

    /** The same on the disk that a recovery left which died `lastSteps` disk steps into its
        last save: from the disk `d` before both to the records that can be read at the end. */
    method RecoverAfterCrash(ghost d: Disk<N>, ghost m: map<Id, Job>, ghost jobs: seq<Job>, ghost lastSteps: nat,
                             ghost reason1: string, ghost now1: Time, reason2: string, now2: Time)
      requires format.Sound() && Holds(format, d, m)
      requires forall j :: j in jobs ==> j.id in m && m[j.id] == j && Active(j)
      requires jobs != [] ==> lastSteps <= SaveSteps(format, WithStatus(jobs[|jobs| - 1], NeedsReview, now1, reason1))
      requires var attempts := RecoveryAttempts(format, jobs, reason1, now1, lastSteps);
               Possible(format, attempts) && files == DiskAfter(format, d, attempts)
      modifies this
      ensures RecoveredOnDisk(format, files, m, reason1, now1, reason2, now2)
    {
      InterruptedRecoveryOnDisk(format, d, m, jobs, reason1, now1, lastSteps);
      ghost var m1 := MapAfter(format, m, RecoveryAttempts(format, jobs, reason1, now1, lastSteps));
      RecoverRunningJobs(reason2, now2, m1);
      RecoveryAfterCrashOnDisk(format, files, m, m1, reason1, now1, reason2, now2);
    }
  }

  function IdsOf(jobs: seq<Job>): set<Id> {
    if jobs == [] then {} else IdsOf(jobs[..|jobs| - 1]) + {jobs[|jobs| - 1].id}
  }

  lemma IdsOfPrefix(jobs: seq<Job>, n: nat)
    requires n <= |jobs|
    ensures n < |jobs| ==> IdsOf(jobs[..n + 1]) == IdsOf(jobs[..n]) + {jobs[n].id}
    ensures n == |jobs| ==> IdsOf(jobs[..n]) == IdsOf(jobs)
  {
    if n < |jobs| {
      assert jobs[..n + 1][..n] == jobs[..n];
    } else {
      assert jobs[..n] == jobs;
    }
  }

  lemma {:induction false} IdsOfMembers(jobs: seq<Job>)
    ensures forall id :: id in IdsOf(jobs) <==> exists j :: j in jobs && j.id == id
  {
    if jobs != [] {
      var front, last := jobs[..|jobs| - 1], jobs[|jobs| - 1];
      assert jobs == front + [last];
      IdsOfMembers(front);
      forall id
        ensures id in IdsOf(jobs) <==> exists j :: j in jobs && j.id == id
      {
        if id == last.id {
          assert last in jobs;
        }
      }
    }
  }

  function ActiveIds(m: map<Id, Job>): set<Id> { set id | id in m && Active(m[id]) }

  /** `m` with the jobs in `done` moved to NEEDS_REVIEW. */
  function RecoveredFor(m: map<Id, Job>, done: set<Id>, reason: string, now: Time): map<Id, Job> {
    map id | id in m :: RecoveredRecord(m[id], id in done, reason, now)
  }

  lemma RecoverNone(m: map<Id, Job>, reason: string, now: Time)
    ensures RecoveredFor(m, {}, reason, now) == m
  {
  }

  lemma RecoverWhole(m: map<Id, Job>, done: set<Id>, reason: string, now: Time)
    requires done == ActiveIds(m)
    ensures RecoveredFor(m, done, reason, now) == Recovered(m, reason, now)
  {
  }

  lemma RecoverOneMore(m: map<Id, Job>, done: set<Id>, id: Id, reason: string, now: Time)
    requires id in m
    ensures RecoveredFor(m, done, reason, now)[id := WithStatus(m[id], NeedsReview, now, reason)]
            == RecoveredFor(m, done + {id}, reason, now)
  {
  }
}
