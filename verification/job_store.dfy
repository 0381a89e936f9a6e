/** The in-memory job store (src/agent_runtime/storage.py). */
module JobStore {
  import opened Common
  import opened Jobs

  /** A Python dict: the records and the order in which their ids first appeared. */
  datatype Store = Store(order: seq<Id>, jobs: map<Id, Job>)

  const EMPTY_STORE := Store([], map[])

  /** The order lists every key once, and every record is stored under its own id. */
  ghost predicate ValidStore(s: Store) {
    && multiset(s.order) == multiset(s.jobs.Keys)
    && (forall id :: id in s.jobs ==> s.jobs[id].id == id)
  }

  lemma OrderListsKeys(s: Store)
    requires ValidStore(s)
    ensures Distinct(s.order)
    ensures forall id :: id in s.order <==> id in s.jobs
  {
    forall i, j | 0 <= i < j < |s.order|
      ensures s.order[i] != s.order[j]
    {
      var a, b := s.order[..j], s.order[j..];
      assert s.order == a + b && a[i] in a && b[0] == s.order[j];
      assert multiset(s.order)[s.order[j]] == multiset(a)[s.order[j]] + multiset(b)[s.order[j]];
      assert multiset(s.jobs.Keys)[s.order[j]] <= 1;
    }
    forall id
      ensures id in s.order <==> id in s.jobs
    {
      assert id in multiset(s.order) <==> id in multiset(s.jobs.Keys);
    }
  }

  function Put(s: Store, job: Job): Store {
    Store(if job.id in s.jobs then s.order else s.order + [job.id], s.jobs[job.id := job])
  }

  lemma PutValid(s: Store, job: Job)
    requires ValidStore(s)
    ensures ValidStore(Put(s, job))
  {
    var s' := Put(s, job);
    if job.id in s.jobs {
      assert s'.jobs.Keys == s.jobs.Keys;
    } else {
      assert s'.jobs.Keys == s.jobs.Keys + {job.id};
    }
  }

  /** dict.values(): the records in insertion order. */
  function Values(s: Store): (r: seq<Job>)
    requires ValidStore(s)
  {
    OrderListsKeys(s);
    seq(|s.order|, i requires 0 <= i < |s.order| => s.jobs[s.order[i]])
  }

  lemma ValuesAreJobs(s: Store)
    requires ValidStore(s)
    ensures forall j: Job :: j in Values(s) <==> j.id in s.jobs && s.jobs[j.id] == j
  {
    OrderListsKeys(s);
    forall j: Job | j.id in s.jobs && s.jobs[j.id] == j
      ensures j in Values(s)
    {
      var i :| 0 <= i < |s.order| && s.order[i] == j.id;
      assert Values(s)[i] == j;
    }
  }

  function WithFingerprint(fingerprint: string): Job -> bool { (j: Job) => j.origin.fingerprint == fingerprint }

  function InStatuses(statuses: set<Status>): Job -> bool { (j: Job) => j.status in statuses }

  function Unfinished(): Job -> bool { (j: Job) => !Terminal(j.status) }

  function InChat(chat: int): Job -> bool { (j: Job) => j.origin.chat == chat }

  function Listed(s: Store, statuses: set<Status>): seq<Job>
    requires ValidStore(s)
  {
    Filter(Values(s), InStatuses(statuses))
  }

  /** Lexicographic order on (updated_at, created_at). */
  predicate Newer(a: Job, b: Job) {
    a.updatedAt > b.updatedAt || (a.updatedAt == b.updatedAt && a.createdAt > b.createdAt)
  }

  /** Python's max: the first of the newest candidates. */
  function Newest(js: seq<Job>): (r: Job)
    requires js != []
    ensures r in js
    ensures forall j :: j in js ==> !Newer(j, r)
  {
    if |js| == 1 then js[0]
    else
      var best, last := Newest(js[..|js| - 1]), js[|js| - 1];
      assert js == js[..|js| - 1] + [last];
      if Newer(last, best) then last else best
  }

  function Preferred(matches: seq<Job>): Option<Job> {
    var active := Filter(matches, Unfinished());
    if matches == [] then None
    else if active != [] then Some(Newest(active))
    else Some(Newest(matches))
  }

  function Find(s: Store, fingerprint: string): Option<Job>
    requires ValidStore(s)
  {
    Preferred(Filter(Values(s), WithFingerprint(fingerprint)))
  }

  ghost predicate Matches(s: Store, fingerprint: string, id: Id) {
    id in s.jobs && s.jobs[id].origin.fingerprint == fingerprint
  }

  lemma MatchesAreFiltered(s: Store, fingerprint: string)
    requires ValidStore(s)
    ensures forall j: Job :: j in Filter(Values(s), WithFingerprint(fingerprint))
                             <==> Matches(s, fingerprint, j.id) && s.jobs[j.id] == j
  {
    ValuesAreJobs(s);
    FilterIn(Values(s), WithFingerprint(fingerprint));
  }

  /** The choice among the matches: unfinished first, then the most recently updated. */
  lemma PreferredIsNewest(matches: seq<Job>)
    ensures Preferred(matches).None? <==> matches == []
    ensures Preferred(matches).Some? ==>
              var r := Preferred(matches).value;
              && r in matches
              && (Terminal(r.status) <==> forall j :: j in matches ==> Terminal(j.status))
              && (forall j :: j in matches && Terminal(j.status) == Terminal(r.status) ==> !Newer(j, r))
  {
    var active := Filter(matches, Unfinished());
    FilterIn(matches, Unfinished());
    if active != [] {
      assert Newest(active) in active;
    } else {
      forall j | j in matches
        ensures Terminal(j.status)
      {
        assert j !in active;
      }
    }
  }

  /** The lookup finds a record whenever one matches, an unfinished one whenever one
      exists, and always the most recently updated of the candidates. */
  lemma FindPrefersUnfinished(s: Store, fingerprint: string)
    requires ValidStore(s)
    ensures Find(s, fingerprint).None? <==> forall id :: !Matches(s, fingerprint, id)
    ensures Find(s, fingerprint).Some? ==>
              var r := Find(s, fingerprint).value;
              && Matches(s, fingerprint, r.id)
              && s.jobs[r.id] == r
              && (Terminal(r.status) <==> forall id :: Matches(s, fingerprint, id) ==> Terminal(s.jobs[id].status))
              && (forall id :: Matches(s, fingerprint, id) && Terminal(s.jobs[id].status) == Terminal(r.status)
                               ==> !Newer(s.jobs[id], r))
  {
    MatchesAreFiltered(s, fingerprint);
    var matches := Filter(Values(s), WithFingerprint(fingerprint));
    PreferredIsNewest(matches);
    forall id | Matches(s, fingerprint, id)
      ensures s.jobs[id] in matches && s.jobs[id].id == id
    {
    }
    if matches != [] {
      assert Matches(s, fingerprint, matches[0].id);
    }
  }

  /** The record is not older than the other: by its last update, and at the same one by its creation. */
  ghost predicate NotOlder(r: Job, j: Job) {
    j.updatedAt < r.updatedAt || (j.updatedAt == r.updatedAt && j.createdAt <= r.createdAt)
  }

  /** What the lookup finds, on the records' own fields: of the unfinished ones of the fingerprint,
      or without such of all of them, one that is not older than any. */
  lemma FoundIsLatest(s: Store, fingerprint: string)
    requires ValidStore(s)
    ensures var found := Find(s, fingerprint);
            var matches := set id | id in s.jobs && s.jobs[id].origin.fingerprint == fingerprint;
            var unfinished := set id | id in matches
                                       && s.jobs[id].status in {Draft, AwaitingInput, Queued, Running, WaitingUser};
            && (found.None? <==> matches == {})
            && (found.Some? ==>
                  && found.value.id in (if unfinished != {} then unfinished else matches)
                  && s.jobs[found.value.id] == found.value
                  && forall id :: id in (if unfinished != {} then unfinished else matches)
                                  ==> NotOlder(found.value, s.jobs[id]))
  {
    FindPrefersUnfinished(s, fingerprint);
    var matches := set id | id in s.jobs && s.jobs[id].origin.fingerprint == fingerprint;
    forall id
      ensures id in matches <==> Matches(s, fingerprint, id)
    {
    }
    if some :| some in matches {
      assert Matches(s, fingerprint, some);
    }
    var unfinished := set id | id in matches
                               && s.jobs[id].status in {Draft, AwaitingInput, Queued, Running, WaitingUser};
    if u :| u in unfinished {
      assert Matches(s, fingerprint, u) && !Terminal(s.jobs[u].status);
    }
    forall id | id in matches
      ensures Terminal(s.jobs[id].status) <==> id !in unfinished
    {
    }
  }

  /** Saving changes one record, and adds its id at the end when it is new. */
  lemma PutMeans(s: Store, job: Job)
    requires ValidStore(s)
    ensures Put(s, job).jobs == s.jobs[job.id := job]
    ensures Put(s, job).order == if job.id in s.order then s.order else s.order + [job.id]
  {
    OrderListsKeys(s);
  }

  class InMemoryAgentJobStore {
    var jobs: map<Id, Job>
    var order: seq<Id>

    ghost function View(): Store reads this { Store(order, jobs) }

    ghost predicate Valid() reads this { ValidStore(View()) }

    constructor ()
      ensures Valid() && View() == EMPTY_STORE
    {
      jobs, order := map[], [];
    }

    method Save(job: Job)
      requires Valid()
      modifies this
      ensures Valid() && View() == Put(old(View()), job)
    {
      if job.id !in jobs {
        order := order + [job.id];
      }
      jobs := jobs[job.id := job];
      PutValid(old(View()), job);
    }

    /** None stands for AgentJobNotFoundError. */
    method Get(id: Id) returns (r: Option<Job>)
      requires Valid()
      ensures r == if id in View().jobs then Some(View().jobs[id]) else None
    {
      r := if id in jobs then Some(jobs[id]) else None;
    }

    method FindByFingerprint(fingerprint: string) returns (r: Option<Job>)
      requires Valid()
      ensures r == Find(View(), fingerprint)
    {
      OrderListsKeys(View());
      var matches: seq<Job> := [];
      var i := 0;
      while i < |order|
        invariant 0 <= i <= |order|
        invariant matches == Filter(Values(View())[..i], WithFingerprint(fingerprint))
      {
        var job := jobs[order[i]];
        FilterAppend(Values(View())[..i], job, WithFingerprint(fingerprint));
        assert Values(View())[..i + 1] == Values(View())[..i] + [job];
        if job.origin.fingerprint == fingerprint {
          matches := matches + [job];
        }
        i := i + 1;
      }
      assert Values(View())[..i] == Values(View());
      r := Preferred(matches);
    }

    method ListByStatus(statuses: set<Status>) returns (r: seq<Job>)
      requires Valid()
      ensures r == Listed(View(), statuses)
    {
      OrderListsKeys(View());
      r := [];
      var i := 0;
      while i < |order|
        invariant 0 <= i <= |order|
        invariant r == Filter(Values(View())[..i], InStatuses(statuses))
      {
        var job := jobs[order[i]];
        FilterAppend(Values(View())[..i], job, InStatuses(statuses));
        assert Values(View())[..i + 1] == Values(View())[..i] + [job];
        if job.status in statuses {
          r := r + [job];
        }
        i := i + 1;
      }
      assert Values(View())[..i] == Values(View());
    }
  }
}
