/** The durable event stream (src/agent_runtime/events.py): one JSONL file per job. */
module EventFiles {
  import opened Common
  import opened Jobs

  /** A line that is blank after stripping is skipped; every other one reads as an event. */
  datatype Line = Blank | Entry(event: Event)

  function Entries(lines: seq<Line>): seq<Event> {
    if lines == [] then []
    else
      var last := lines[|lines| - 1];
      Entries(lines[..|lines| - 1]) + if last.Entry? then [last.event] else []
  }

  function FileOf(files: map<Id, seq<Line>>, id: Id): seq<Line> { if id in files then files[id] else [] }

  function Appended(files: map<Id, seq<Line>>, e: Event): map<Id, seq<Line>> {
    files[e.jobId := FileOf(files, e.jobId) + [Entry(e)]]
  }

  /** The files against the single log of the in-memory stream: each job's file holds exactly
      its events, in order. */
  ghost predicate Holds(files: map<Id, seq<Line>>, log: seq<Event>) {
    forall id :: Entries(FileOf(files, id)) == Filter(log, OfJob(id))
  }

  lemma EmitKeepsFile(files: map<Id, seq<Line>>, log: seq<Event>, e: Event, id: Id)
    requires Entries(FileOf(files, id)) == Filter(log, OfJob(id))
    ensures Entries(FileOf(Appended(files, e), id)) == Filter(log + [e], OfJob(id))
  {
    FilterAppend(log, e, OfJob(id));
    if id == e.jobId {
      var before := FileOf(files, id);
      assert (before + [Entry(e)])[..|before|] == before;
    }
  }

  lemma EmitKeeps(files: map<Id, seq<Line>>, log: seq<Event>, e: Event)
    requires Holds(files, log)
    ensures Holds(Appended(files, e), log + [e])
  {
    forall id
      ensures Entries(FileOf(Appended(files, e), id)) == Filter(log + [e], OfJob(id))
    {
      EmitKeepsFile(files, log, e, id);
    }
  }

  class FileAgentEventStream {
    var files: map<Id, seq<Line>>

    constructor ()
      ensures Holds(files, [])
    {
      files := map[];
    }

    method Emit(e: Event, ghost log: seq<Event>)
      requires Holds(files, log)
      modifies this
      ensures files == Appended(old(files), e) && Holds(files, log + [e])
    {
      EmitKeeps(files, log, e);
      var before := if e.jobId in files then files[e.jobId] else [];
      files := files[e.jobId := before + [Entry(e)]];
    }

    /** The durable stream answers like the in-memory one. */
    method EventsFor(id: Id, ghost log: seq<Event>) returns (r: seq<Event>)
      requires Holds(files, log)
      ensures r == Filter(log, OfJob(id))
    {
      r := [];
      if id in files {
        var lines := files[id];
        for i := 0 to |lines|
          invariant r == Entries(lines[..i])
        {
          assert lines[..i + 1][..i] == lines[..i];
          if lines[i].Entry? {
            r := r + [lines[i].event];
          }
        }
        assert lines[..|lines|] == lines;
      }
      assert r == Entries(FileOf(files, id));
    }
  }
}
