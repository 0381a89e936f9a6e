/** Personal Telegram inbound events (src/agent_runtime/telegram_inbound.py): the append-only
    log and the handlers that answer events, interleaved and interrupted. */
module Inbound {
  import opened Common

  type EventId = nat

  datatype ChatType = PRIVATE | GROUP | CHANNEL | UNKNOWN

  datatype Event = Event(id: EventId, chat: nat, chatType: ChatType, addressed: bool, text: string)

  datatype Status = Pending | Processed | DeadLetter

  datatype Record = Record(event: Event, status: Status, reason: string)

  /** _event_allows_auto_reply. */
  predicate AllowsAutoReply(e: Event) {
    e.chatType.PRIVATE? || (e.chatType.GROUP? && e.addressed)
  }

  /** Private messages are answered, and group messages that address the account. */
  predicate Answered(e: Event) {
    match e.chatType
    case PRIVATE => true
    case GROUP => e.addressed
    case CHANNEL => false
    case UNKNOWN => false
  }

  lemma AutoReplyMeans(e: Event)
    ensures AllowsAutoReply(e) <==> Answered(e)
  {
  }

  /* ---- the log ---- */

  /** The dict latest_records builds: ids in the order they first appear. */
  datatype Dict = Dict(order: seq<EventId>, records: map<EventId, Record>)

  function PutRecord(d: Dict, r: Record): Dict {
    Dict(if r.event.id in d.records then d.order else d.order + [r.event.id], d.records[r.event.id := r])
  }

  function Latest(lines: seq<Record>): Dict {
    if lines == [] then Dict([], map[]) else PutRecord(Latest(lines[..|lines| - 1]), lines[|lines| - 1])
  }

  lemma LatestAppend(lines: seq<Record>, r: Record)
    ensures Latest(lines + [r]) == PutRecord(Latest(lines), r)
  {
    assert (lines + [r])[..|lines|] == lines;
  }

  lemma LatestPrefix(lines: seq<Record>, n: nat)
    requires n < |lines|
    ensures Latest(lines[..n + 1]) == PutRecord(Latest(lines[..n]), lines[n])
  {
    assert lines[..n + 1][..n] == lines[..n];
  }

  lemma {:induction false} LatestOrder(lines: seq<Record>)
    ensures forall id :: id in Latest(lines).order <==> id in Latest(lines).records
  {
    if lines != [] {
      LatestOrder(lines[..|lines| - 1]);
    }
  }

  function PendingOf(order: seq<EventId>, records: map<EventId, Record>): seq<Event>
    requires forall id :: id in order ==> id in records
  {
    if order == [] then []
    else
      var r := records[order[|order| - 1]];
      PendingOf(order[..|order| - 1], records) + if r.status.Pending? then [r.event] else []
  }

  /** list_pending. */
  function ListPending(lines: seq<Record>): seq<Event> {
    LatestOrder(lines);
    PendingOf(Latest(lines).order, Latest(lines).records)
  }

  /** mark_processed and mark_dead_letter: an unknown event is ignored. */
  function Mark(lines: seq<Record>, id: EventId, status: Status, reason: string): seq<Record> {
    var latest := Latest(lines).records;
    if id in latest then lines + [latest[id].(status := status, reason := reason)] else lines
  }

  class FilePersonalTelegramInboundEventStore {
    var lines: seq<Record>

    constructor (lines: seq<Record>)
      ensures this.lines == lines
    {
      this.lines := lines;
    }

    method RecordPending(e: Event)
      modifies this
      ensures lines == old(lines) + [Record(e, Pending, "")]
    {
      lines := lines + [Record(e, Pending, "")];
    }

    method LatestRecords() returns (d: Dict)
      ensures d == Latest(lines)
    {
      d := Dict([], map[]);
      for i := 0 to |lines|
        invariant d == Latest(lines[..i])
      {
        LatestPrefix(lines, i);
        d := PutRecord(d, lines[i]);
      }
      assert lines[..|lines|] == lines;
    }

    method MarkEvent(id: EventId, status: Status, reason: string)
      modifies this
      ensures lines == Mark(old(lines), id, status, reason)
    {
      var latest := LatestRecords();
      if id in latest.records {
        lines := lines + [latest.records[id].(status := status, reason := reason)];
      }
    }

    method PendingEvents() returns (r: seq<Event>)
      ensures r == ListPending(lines)
    {
      var latest := LatestRecords();
      LatestOrder(lines);
      r := [];
      var i := 0;
      while i < |latest.order|
        invariant 0 <= i <= |latest.order|
        invariant r == PendingOf(latest.order[..i], latest.records)
      {
        assert latest.order[..i + 1][..i] == latest.order[..i];
        var record := latest.records[latest.order[i]];
        if record.status.Pending? {
          r := r + [record.event];
        }
        i := i + 1;
      }
      assert latest.order[..i] == latest.order;
    }
  }

  /** How far handle_update_and_reply gets before it awaits the responder. */
  datatype Received = Ignored(reason: string) | Observed | Skipped | AwaitingResponder

  class PersonalTelegramInboundListener {
    const store: FilePersonalTelegramInboundEventStore
    const enabled: bool
    const canAutoReply: bool
    const hasResponder: bool

    constructor (store: FilePersonalTelegramInboundEventStore, enabled: bool, canAutoReply: bool, hasResponder: bool)
      ensures this.store == store && this.enabled == enabled
      ensures this.canAutoReply == canAutoReply && this.hasResponder == hasResponder
    {
      this.store, this.enabled, this.canAutoReply, this.hasResponder := store, enabled, canAutoReply, hasResponder;
    }

    /** None is an outgoing update. */
    method HandleUpdateAndReply(update: Option<Event>) returns (r: Received)
      modifies store
      ensures update.None? || !enabled ==> r.Ignored? && store.lines == old(store.lines)
      ensures update.Some? && enabled && !hasResponder ==>
                r == Observed && store.lines == old(store.lines) + [Record(update.value, Pending, "")]
      ensures update.Some? && enabled && hasResponder ==>
                && (r == AwaitingResponder <==> canAutoReply && Answered(update.value))
                && (var recorded := old(store.lines) + [Record(update.value, Pending, "")];
                    var marked := Mark(recorded, update.value.id, Processed, "auto_reply_not_allowed");
                    if r == AwaitingResponder then store.lines == recorded
                    else r == Skipped && store.lines == marked)
    {
      if update.None? {
        return Ignored("outgoing_event_ignored");
      }
      if !enabled {
        return Ignored("inbound_listener_disabled");
      }
      store.RecordPending(update.value);
      if !hasResponder {
        return Observed;
      }
      if !(canAutoReply && AllowsAutoReply(update.value)) {
        store.MarkEvent(update.value.id, Processed, "auto_reply_not_allowed");
        return Skipped;
      }
      r := AwaitingResponder;
    }

    /** The responder returned; a reply is passed to send_message, which is awaited next. */
    method AfterResponder(e: Event, reply: string) returns (sends: bool)
      modifies store
      ensures sends <==> reply != ""
      ensures store.lines == if sends then old(store.lines) else Mark(old(store.lines), e.id, Processed, "")
    {
      sends := reply != "";
      if !sends {
        store.MarkEvent(e.id, Processed, "");
      }
    }

    /** send_message returned, or one of the two awaits raised. */
    method AfterSend(e: Event, raised: bool)
      modifies store
      ensures store.lines == if raised then Mark(old(store.lines), e.id, DeadLetter, "responder_failed")
                             else Mark(old(store.lines), e.id, Processed, "")
    {
      if raised {
        store.MarkEvent(e.id, DeadLetter, "responder_failed");
      } else {
        store.MarkEvent(e.id, Processed, "");
      }
    }
  }

  /* ---- the handlers ---- */

  datatype Phase = Responding | Sending

  datatype Handler = Handler(event: Event, phase: Phase)

  /** `arrived` are the recorded events in order, `finished` the ids whose handler returned,
      `replied` the ids the listener itself passed to send_message; `canAutoReply` is the
      ingestor's setting. */
  datatype Sys = Sys(canAutoReply: bool, lines: seq<Record>, handlers: map<nat, Handler>, next: nat,
                     arrived: seq<Event>, finished: set<EventId>, replied: seq<EventId>)

  function Start(canAutoReply: bool): Sys { Sys(canAutoReply, [], map[], 0, [], {}, []) }

  /** How an await inside handle_update_and_reply ends. */
  datatype Wake =
    | Replies(text: string)           // the responder returns; "" stands for no reply
    | Sent                            // send_message returns
    | Raises                          // either of them raises an Exception
    | Killed                          // the handler is canceled

  datatype Step =
    | Arrive(event: Event)
    | ArriveAndDie(event: Event)      // the process dies between recording and marking
    | Resume(handler: nat, wake: Wake)
    | Restart

  function Finish(s: Sys, h: nat, id: EventId, status: Status, reason: string): Sys {
    s.(lines := Mark(s.lines, id, status, reason), handlers := s.handlers - {h}, finished := s.finished + {id})
  }

  function Recorded(s: Sys, e: Event): Sys {
    s.(lines := s.lines + [Record(e, Pending, "")], arrived := s.arrived + [e])
  }

  /** handle_update_and_reply with an enabled ingestor and a responder, up to its first await. */
  function ArriveSpec(s: Sys, e: Event): Sys {
    var recorded := Recorded(s, e);
    if s.canAutoReply && AllowsAutoReply(e)
    then recorded.(handlers := s.handlers[s.next := Handler(e, Responding)], next := s.next + 1)
    else recorded.(lines := Mark(recorded.lines, e.id, Processed, "auto_reply_not_allowed"),
                   finished := s.finished + {e.id})
  }

  function ResumeSpec(s: Sys, h: nat, wake: Wake): Sys
    requires h in s.handlers
  {
    var e := s.handlers[h].event;
    match wake
    case Replies(text) =>
      if s.handlers[h].phase.Sending? then s
      else if text == "" then Finish(s, h, e.id, Processed, "")
      else s.(handlers := s.handlers[h := Handler(e, Sending)], replied := s.replied + [e.id])
    case Sent => if s.handlers[h].phase.Responding? then s else Finish(s, h, e.id, Processed, "")
    case Raises => Finish(s, h, e.id, DeadLetter, "responder_failed")
    case Killed => s.(handlers := s.handlers - {h})
  }

  function Next(s: Sys, step: Step): Sys {
    match step
    case Arrive(e) => ArriveSpec(s, e)
    case ArriveAndDie(e) => Recorded(s, e).(handlers := map[])
    case Resume(h, wake) => if h in s.handlers then ResumeSpec(s, h, wake) else s
    case Restart => s.(handlers := map[])
  }

  function Run(canAutoReply: bool, steps: seq<Step>): Sys {
    if steps == [] then Start(canAutoReply) else Next(Run(canAutoReply, steps[..|steps| - 1]), steps[|steps| - 1])
  }

  function Latest'(s: Sys): map<EventId, Record> { Latest(s.lines).records }

  /** The log against the history: one entry per arrived event, in order, with that event. */
  ghost predicate LogInv(s: Sys) {
    var d := Latest(s.lines);
    && |d.order| == |s.arrived|
    && (forall i :: 0 <= i < |s.arrived| ==> Holds(d.records, d.order[i], s.arrived[i]))
  }

  ghost predicate Holds(records: map<EventId, Record>, id: EventId, e: Event) {
    e.id == id && id in records && records[id].event == e
  }

  /** A record is pending exactly while its handler has not finished. */
  ghost predicate StatusInv(s: Sys) {
    && (forall id :: id in Latest'(s) ==> (Latest'(s)[id].status.Pending? <==> id !in s.finished))
    && (forall id :: id in s.finished ==> id in Latest'(s))
  }

  /** A suspended handler works on a recorded, unfinished event that allows a reply, and has
      not replied to it before it is sending. */
  ghost predicate HandlerOk(s: Sys, h: Handler) {
    && Holds(Latest'(s), h.event.id, h.event) && s.canAutoReply && AllowsAutoReply(h.event)
    && h.event.id !in s.finished
    && (h.phase.Responding? ==> h.event.id !in s.replied)
  }

  ghost predicate HandlerInv(s: Sys) {
    && (forall h :: h in s.handlers ==> h < s.next && HandlerOk(s, s.handlers[h]))
    && (forall h, k :: h in s.handlers && k in s.handlers && h != k ==>
         s.handlers[h].event.id != s.handlers[k].event.id)
  }

  ghost predicate ReplyInv(s: Sys) {
    && (forall id :: Count(s.replied, IsId(id)) <= 1)
    && (forall id :: id in s.replied ==> s.canAutoReply && id in Latest'(s) && AllowsAutoReply(Latest'(s)[id].event))
  }

  ghost predicate Inv(s: Sys) { LogInv(s) && StatusInv(s) && HandlerInv(s) && ReplyInv(s) }

  lemma {:induction false} CountAbsent(s: seq<EventId>, id: EventId)
    requires id !in s
    ensures Count(s, IsId(id)) == 0
  {
    if s != [] {
      CountAbsent(s[..|s| - 1], id);
    }
  }

  /** Marking a recorded event changes the status of its record and nothing else. */
  lemma MarkEffect(lines: seq<Record>, id: EventId, status: Status, reason: string)
    requires id in Latest(lines).records && Latest(lines).records[id].event.id == id
    ensures var d, d' := Latest(lines), Latest(Mark(lines, id, status, reason));
            d'.order == d.order && d'.records == d.records[id := d.records[id].(status := status, reason := reason)]
  {
    LatestAppend(lines, Latest(lines).records[id].(status := status, reason := reason));
  }

  /** Finishing the event of a handler, or one that has none. */
  lemma FinishKeeps(s: Sys, handlers: map<nat, Handler>, id: EventId, status: Status, reason: string)
    requires Inv(s) && id in Latest'(s) && Latest'(s)[id].event.id == id && !status.Pending?
    requires forall h :: h in handlers ==> h in s.handlers && handlers[h] == s.handlers[h] && handlers[h].event.id != id
    ensures Inv(s.(lines := Mark(s.lines, id, status, reason), handlers := handlers, finished := s.finished + {id}))
  {
    MarkEffect(s.lines, id, status, reason);
  }

  lemma RecordKeeps(s: Sys, e: Event)
    requires Inv(s) && e.id !in Latest'(s)
    ensures Inv(Recorded(s, e))
    ensures Latest(s.lines + [Record(e, Pending, "")]).records == Latest'(s)[e.id := Record(e, Pending, "")]
  {
    LatestAppend(s.lines, Record(e, Pending, ""));
  }

  lemma ArriveKeeps(s: Sys, e: Event)
    requires Inv(s) && e.id !in Latest'(s)
    ensures Inv(ArriveSpec(s, e))
  {
    var r := Recorded(s, e);
    RecordKeeps(s, e);
    assert e.id !in s.replied;
    if !(s.canAutoReply && AllowsAutoReply(e)) {
      FinishKeeps(r, r.handlers, e.id, Processed, "auto_reply_not_allowed");
    }
  }

  lemma ReplyKeeps(s: Sys, h: nat, text: string)
    requires Inv(s) && h in s.handlers && s.handlers[h].phase.Responding? && text != ""
    ensures Inv(ResumeSpec(s, h, Replies(text)))
  {
    var e := s.handlers[h].event;
    var s' := ResumeSpec(s, h, Replies(text));
    assert HandlerOk(s, s.handlers[h]);
    forall id
      ensures Count(s'.replied, IsId(id)) <= 1
    {
      CountAppend(s.replied, e.id, IsId(id));
      if id == e.id {
        CountAbsent(s.replied, id);
      }
    }
  }

  lemma ResumeKeeps(s: Sys, h: nat, wake: Wake)
    requires Inv(s) && h in s.handlers
    ensures Inv(ResumeSpec(s, h, wake))
  {
    var id := s.handlers[h].event.id;
    assert HandlerOk(s, s.handlers[h]);
    match wake
    case Replies(text) =>
      if text == "" {
        FinishKeeps(s, s.handlers - {h}, id, Processed, "");
      } else if s.handlers[h].phase.Responding? {
        ReplyKeeps(s, h, text);
      }
    case Sent => FinishKeeps(s, s.handlers - {h}, id, Processed, "");
    case Raises => FinishKeeps(s, s.handlers - {h}, id, DeadLetter, "responder_failed");
    case Killed =>
  }

  /** An arriving event has its responder awaited if and only if replying is enabled and it is to be
      answered; otherwise it is processed at once, under that reason. */
  lemma ArriveMeans(s: Sys, e: Event)
    requires e.id !in Latest'(s)
    ensures var s' := Next(s, Arrive(e));
            && s'.arrived == s.arrived + [e] && s'.replied == s.replied
            && (if s.canAutoReply && Answered(e) then
                  && s'.handlers == s.handlers[s.next := Handler(e, Responding)] && s'.finished == s.finished
                  && Latest'(s') == Latest'(s)[e.id := Record(e, Pending, "")]
                else
                  && s'.handlers == s.handlers && s'.finished == s.finished + {e.id}
                  && Latest'(s') == Latest'(s)[e.id := Record(e, Processed, "auto_reply_not_allowed")])
  {
    AutoReplyMeans(e);
    LatestAppend(s.lines, Record(e, Pending, ""));
    MarkEffect(s.lines + [Record(e, Pending, "")], e.id, Processed, "auto_reply_not_allowed");
  }

  /** How an await ends the event: a reply is sent on, an empty one or a sent one processes it, an
      exception makes it a dead letter, and a canceled handler leaves it pending. */
  lemma ResumeMeans(s: Sys, h: nat, wake: Wake)
    requires Inv(s) && h in s.handlers
    ensures var s', e := ResumeSpec(s, h, wake), s.handlers[h].event;
            var done := (wake.Replies? && wake.text == "" && s.handlers[h].phase == Responding)
                        || (wake.Sent? && s.handlers[h].phase == Sending) || wake.Raises?;
            && e.id in Latest'(s')
            && (if done then Latest'(s')[e.id] == (if wake.Raises? then Record(e, DeadLetter, "responder_failed")
                                                   else Record(e, Processed, ""))
                else Latest'(s')[e.id] == Latest'(s)[e.id])
            && (e.id in s'.finished <==> done)
            && (s'.replied == if wake.Replies? && wake.text != "" && s.handlers[h].phase == Responding
                              then s.replied + [e.id] else s.replied)
            && (h in s'.handlers <==> !done && wake != Killed)
  {
    var id := s.handlers[h].event.id;
    assert HandlerOk(s, s.handlers[h]);
    MarkEffect(s.lines, id, Processed, "");
    MarkEffect(s.lines, id, DeadLetter, "responder_failed");
  }

  predicate Arrives(step: Step) { step.Arrive? || step.ArriveAndDie? }

  /** Only arrivals add ids to the log. */
  lemma StepKeepsIds(s: Sys, step: Step)
    requires Inv(s)
    ensures Latest'(Next(s, step)).Keys <= Latest'(s).Keys + if Arrives(step) then {step.event.id} else {}
  {
    match step
    case Arrive(e) =>
      LatestAppend(s.lines, Record(e, Pending, ""));
      var lines := s.lines + [Record(e, Pending, "")];
      MarkEffect(lines, e.id, Processed, "auto_reply_not_allowed");
    case ArriveAndDie(e) => LatestAppend(s.lines, Record(e, Pending, ""));
    case Restart =>
    case Resume(h, wake) =>
      if h in s.handlers {
        var id := s.handlers[h].event.id;
        assert HandlerOk(s, s.handlers[h]);
        MarkEffect(s.lines, id, Processed, "");
        MarkEffect(s.lines, id, DeadLetter, "responder_failed");
      }
  }

  function ArrivedIds(steps: seq<Step>): set<EventId> {
    if steps == [] then {}
    else
      var last := steps[|steps| - 1];
      ArrivedIds(steps[..|steps| - 1]) + if Arrives(last) then {last.event.id} else {}
  }

  /** Event ids are distinct: no event arrives twice. */
  ghost predicate DistinctArrivals(steps: seq<Step>) {
    forall n :: 0 <= n < |steps| && Arrives(steps[n]) ==> steps[n].event.id !in ArrivedIds(steps[..n])
  }

  lemma {:induction false} RunKeeps(canAutoReply: bool, steps: seq<Step>)
    requires DistinctArrivals(steps)
    ensures Inv(Run(canAutoReply, steps)) && Run(canAutoReply, steps).canAutoReply == canAutoReply
    ensures Latest'(Run(canAutoReply, steps)).Keys <= ArrivedIds(steps)
  {
    if steps != [] {
      var front, step := steps[..|steps| - 1], steps[|steps| - 1];
      forall n | 0 <= n < |front| && Arrives(front[n])
        ensures front[n].event.id !in ArrivedIds(front[..n])
      {
        assert front[..n] == steps[..n];
      }
      RunKeeps(canAutoReply, front);
      StepKeepsIds(Run(canAutoReply, front), step);
      match step
      case Arrive(e) => ArriveKeeps(Run(canAutoReply, front), e);
      case ArriveAndDie(e) => RecordKeeps(Run(canAutoReply, front), e);
      case Restart =>
      case Resume(h, wake) =>
        if h in Run(canAutoReply, front).handlers {
          ResumeKeeps(Run(canAutoReply, front), h, wake);
        }
    }
  }

  function Unfinished(finished: set<EventId>): Event -> bool { (e: Event) => e.id !in finished }

  lemma {:induction false} PendingPrefix(s: Sys, n: nat)
    requires LogInv(s) && StatusInv(s) && n <= |s.arrived|
    ensures var d := Latest(s.lines);
            (forall id :: id in d.order[..n] ==> id in d.records)
            && PendingOf(d.order[..n], d.records) == Filter(s.arrived[..n], Unfinished(s.finished))
  {
    var d := Latest(s.lines);
    if n > 0 {
      PendingPrefix(s, n - 1);
      assert d.order[..n][..n - 1] == d.order[..n - 1];
      assert Holds(d.records, d.order[n - 1], s.arrived[n - 1]);
      FilterAppend(s.arrived[..n - 1], s.arrived[n - 1], Unfinished(s.finished));
      assert s.arrived[..n] == s.arrived[..n - 1] + [s.arrived[n - 1]];
    }
  }

  /** In every interleaving, with cancellations and restarts, list_pending is exactly the
      recorded events whose handler did not finish, in the order they arrived. */
  lemma PendingIsUnfinished(canAutoReply: bool, steps: seq<Step>)
    requires DistinctArrivals(steps)
    ensures var s := Run(canAutoReply, steps); ListPending(s.lines) == Filter(s.arrived, Unfinished(s.finished))
  {
    RunKeeps(canAutoReply, steps);
    var s := Run(canAutoReply, steps);
    PendingPrefix(s, |s.arrived|);
    assert Latest(s.lines).order[..|s.arrived|] == Latest(s.lines).order;
    assert s.arrived[..|s.arrived|] == s.arrived;
  }

  /** A finished event is processed or a dead letter, and its record still carries the event. */
  lemma FinishedIsMarked(canAutoReply: bool, steps: seq<Step>, e: Event)
    requires DistinctArrivals(steps) && e in Run(canAutoReply, steps).arrived
             && e.id in Run(canAutoReply, steps).finished
    ensures var d := Latest(Run(canAutoReply, steps).lines).records;
            e.id in d && d[e.id].event == e && (d[e.id].status.Processed? || d[e.id].status.DeadLetter?)
  {
    RunKeeps(canAutoReply, steps);
    var s := Run(canAutoReply, steps);
    var i :| 0 <= i < |s.arrived| && s.arrived[i] == e;
    assert Latest(s.lines).order[i] == e.id;
  }

  /** The listener's own reply goes out at most once per event, only when replying is enabled,
      and only to private chats and to groups that addressed it. */
  lemma RepliesAreAllowedAndSingle(canAutoReply: bool, steps: seq<Step>, id: EventId)
    requires DistinctArrivals(steps)
    ensures var s := Run(canAutoReply, steps);
            && Count(s.replied, IsId(id)) <= 1
            && (id in s.replied ==> canAutoReply)
            && (id in s.replied ==> exists e :: e in s.arrived && e.id == id
                                                && (e.chatType == PRIVATE || (e.chatType == GROUP && e.addressed)))
  {
    RunKeeps(canAutoReply, steps);
    var s := Run(canAutoReply, steps);
    if id in s.replied {
      LatestOrder(s.lines);
      var d := Latest(s.lines);
      var i :| 0 <= i < |d.order| && d.order[i] == id;
      assert Holds(d.records, d.order[i], s.arrived[i]);
      assert s.arrived[i] in s.arrived;
    }
  }

  /* ---- events delivered again ---- */

  function HasId(id: EventId): Event -> bool { (e: Event) => e.id == id }

  function Responders(handlers: map<nat, Handler>, id: EventId): set<nat> {
    set h | h in handlers && handlers[h].phase.Responding? && handlers[h].event.id == id
  }

  /** An event of this id has arrived that may be answered. */
  ghost predicate Answerable(canAutoReply: bool, arrived: seq<Event>, id: EventId) {
    canAutoReply && exists e :: e in arrived && e.id == id && AllowsAutoReply(e)
  }

  /** Each arrival is good for one reply, sent or still to come from its handler. */
  ghost predicate Owed(arrived: seq<Event>, handlers: map<nat, Handler>, replied: seq<EventId>, id: EventId) {
    Count(replied, IsId(id)) + |Responders(handlers, id)| <= Count(arrived, HasId(id))
  }

  ghost predicate AllAnswerable(s: Sys, id: EventId) {
    && (id in s.replied ==> Answerable(s.canAutoReply, s.arrived, id))
    && (forall h :: h in s.handlers ==>
          h < s.next && (s.handlers[h].event.id == id ==> Answerable(s.canAutoReply, s.arrived, id)))
  }

  ghost predicate ReplyBudget(s: Sys, id: EventId) {
    Owed(s.arrived, s.handlers, s.replied, id) && AllAnswerable(s, id)
  }

  lemma ArriveOwes(arrived: seq<Event>, handlers: map<nat, Handler>, replied: seq<EventId>, next: nat, e: Event,
                   id: EventId)
    requires Owed(arrived, handlers, replied, id) && next !in handlers
    ensures Owed(arrived + [e], handlers, replied, id)
    ensures Owed(arrived + [e], handlers[next := Handler(e, Responding)], replied, id)
  {
    CountAppend(arrived, e, HasId(id));
    assert Responders(handlers[next := Handler(e, Responding)], id)
        == Responders(handlers, id) + if e.id == id then {next} else {};
  }

  lemma FewerOwed(arrived: seq<Event>, handlers: map<nat, Handler>, fewer: map<nat, Handler>, replied: seq<EventId>,
                  id: EventId)
    requires Owed(arrived, handlers, replied, id)
    requires forall h :: h in fewer ==> h in handlers && handlers[h] == fewer[h]
    ensures Owed(arrived, fewer, replied, id)
  {
    var a, b := Responders(fewer, id), Responders(handlers, id);
    assert b == a + (b - a);
  }

  lemma ReplyOwes(arrived: seq<Event>, handlers: map<nat, Handler>, replied: seq<EventId>, h: nat, id: EventId)
    requires Owed(arrived, handlers, replied, id) && h in handlers && handlers[h].phase.Responding?
    ensures Owed(arrived, handlers[h := Handler(handlers[h].event, Sending)], replied + [handlers[h].event.id], id)
  {
    var e := handlers[h].event;
    CountAppend(replied, e.id, IsId(id));
    assert Responders(handlers[h := Handler(e, Sending)], id)
        == Responders(handlers, id) - if e.id == id then {h} else {};
  }

  lemma StillAnswerable(canAutoReply: bool, arrived: seq<Event>, e: Event, id: EventId)
    ensures Answerable(canAutoReply, arrived, id) ==> Answerable(canAutoReply, arrived + [e], id)
    ensures canAutoReply && AllowsAutoReply(e) ==> Answerable(canAutoReply, arrived + [e], e.id)
  {
    assert e in arrived + [e] && forall x :: x in arrived ==> x in arrived + [e];
  }

  lemma ArriveKeepsBudget(s: Sys, e: Event, id: EventId)
    requires ReplyBudget(s, id)
    ensures ReplyBudget(ArriveSpec(s, e), id)
  {
    ArriveOwes(s.arrived, s.handlers, s.replied, s.next, e, id);
    StillAnswerable(s.canAutoReply, s.arrived, e, id);
  }

  /** Fewer handlers, and otherwise nothing that matters to the replies. */
  lemma StopKeepsBudget(s: Sys, s': Sys, id: EventId)
    requires ReplyBudget(s, id)
    requires s'.canAutoReply == s.canAutoReply && s'.arrived == s.arrived && s'.replied == s.replied
    requires s'.next == s.next && forall h :: h in s'.handlers ==> h in s.handlers && s'.handlers[h] == s.handlers[h]
    ensures ReplyBudget(s', id)
  {
    FewerOwed(s.arrived, s.handlers, s'.handlers, s.replied, id);
  }

  lemma ReplyKeepsBudget(s: Sys, h: nat, id: EventId)
    requires ReplyBudget(s, id) && h in s.handlers && s.handlers[h].phase.Responding?
    ensures var e := s.handlers[h].event;
            ReplyBudget(s.(handlers := s.handlers[h := Handler(e, Sending)], replied := s.replied + [e.id]), id)
  {
    var e := s.handlers[h].event;
    ReplyOwes(s.arrived, s.handlers, s.replied, h, id);
    assert id in s.replied + [e.id] ==> id in s.replied || e.id == id;
  }

  lemma ResumeKeepsBudget(s: Sys, h: nat, wake: Wake, id: EventId)
    requires ReplyBudget(s, id) && h in s.handlers
    ensures ReplyBudget(ResumeSpec(s, h, wake), id)
  {
    if wake.Replies? && wake.text != "" && s.handlers[h].phase.Responding? {
      ReplyKeepsBudget(s, h, id);
    } else {
      ResumeStops(s, h, wake);
      StopKeepsBudget(s, ResumeSpec(s, h, wake), id);
    }
  }

  lemma ResumeStops(s: Sys, h: nat, wake: Wake)
    requires h in s.handlers && !(wake.Replies? && wake.text != "" && s.handlers[h].phase.Responding?)
    ensures var s' := ResumeSpec(s, h, wake);
            && s'.canAutoReply == s.canAutoReply && s'.arrived == s.arrived && s'.replied == s.replied
            && s'.next == s.next && (s'.handlers == s.handlers || s'.handlers == s.handlers - {h})
  {
  }

  lemma DeathKeepsBudget(s: Sys, e: Event, id: EventId)
    requires ReplyBudget(s, id)
    ensures ReplyBudget(Recorded(s, e).(handlers := map[]), id)
  {
    ArriveOwes(s.arrived, s.handlers, s.replied, s.next, e, id);
    StillAnswerable(s.canAutoReply, s.arrived, e, id);
    StopKeepsBudget(Recorded(s, e), Recorded(s, e).(handlers := map[]), id);
  }

  lemma StepKeepsBudget(s: Sys, step: Step, id: EventId)
    requires ReplyBudget(s, id)
    ensures ReplyBudget(Next(s, step), id) && Next(s, step).canAutoReply == s.canAutoReply
  {
    match step
    case Arrive(e) => ArriveKeepsBudget(s, e, id);
    case ArriveAndDie(e) => DeathKeepsBudget(s, e, id);
    case Restart => StopKeepsBudget(s, s.(handlers := map[]), id);
    case Resume(h, wake) =>
      if h in s.handlers {
        ResumeKeepsBudget(s, h, wake, id);
      }
  }

  /** In every interleaving, whether or not events arrive again under the same id, the listener
      replies to an id at most once per arrival, only when replying is enabled, and only if an
      event of this id came from a private chat or from a group that addressed it. */
  lemma {:induction false} RepliesPerArrival(canAutoReply: bool, steps: seq<Step>, id: EventId)
    ensures ReplyBudget(Run(canAutoReply, steps), id) && Run(canAutoReply, steps).canAutoReply == canAutoReply
    ensures var s := Run(canAutoReply, steps);
            && Count(s.replied, IsId(id)) <= Count(s.arrived, HasId(id))
            && (id in s.replied ==> Answerable(canAutoReply, s.arrived, id))
  {
    if steps == [] {
      assert Responders(map[], id) == {};
    } else {
      var s, step := Run(canAutoReply, steps[..|steps| - 1]), steps[|steps| - 1];
      RepliesPerArrival(canAutoReply, steps[..|steps| - 1], id);
      StepKeepsBudget(s, step, id);
    }
  }
}
