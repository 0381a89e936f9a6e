/** Social permissions: the event-sourced store (src/agency/store.py), the judgement
    (src/agency/judgement.py) and the send gate (src/agency/social_gate.py).

    Grant and target ids are numbers: the finitely many id strings of a run, numbered in their
    order. Topics are already stripped and lower-cased. Times are microseconds, and so is a
    window, which the source holds in seconds. */
module Social {
  import opened Common

  type GrantId = nat
  type Time = int

  datatype Status = ACTIVE | PAUSED | REVOKED | EXPIRED

  datatype Scope =
    | READ_ONLY | MONITOR | REPLY_IF_ADDRESSED | INITIATE_ONCE | INITIATE_OCCASIONALLY | FREE_CONVERSATION
    | JOIN_GROUP | JOIN_AND_OBSERVE | DISCUSS_TOPIC | TOPIC_LIMITED_POSTING

  datatype Grant = Grant(
    id: GrantId, target: nat, scopes: set<Scope>, status: Status, maxMessages: nat, window: int,
    allowedTopics: set<string>, forbiddenTopics: set<string>, expiresAt: Option<Time>)

  datatype Control = Control(emergencyStop: bool, reason: string)

  datatype Sent = Sent(grant: GrantId, target: nat, at: Time)

  datatype State = State(grants: map<GrantId, Grant>, sent: seq<Sent>, control: Control)

  const EMPTY := State(map[], [], Control(false, ""))

  predicate IsActive(g: Grant, now: Time) {
    g.status.ACTIVE? && (g.expiresAt.None? || g.expiresAt.value > now)
  }

  predicate Permits(g: Grant, scope: Scope, now: Time) { IsActive(g, now) && scope in g.scopes }

  /* ---- the store and its log ---- */

  /** One line of the log. */
  datatype Event =
    | GrantAdded(grant: Grant)
    | GrantStatus(id: GrantId, status: Status)
    | ControlSet(stop: bool, reason: string)
    | SendRecorded(id: GrantId, target: nat, at: Time)

  /** _apply_event; a status for an unknown grant is ignored. */
  function ApplyEvent(s: State, e: Event): State {
    match e
    case GrantAdded(g) => s.(grants := s.grants[g.id := g])
    case GrantStatus(id, status) =>
      if id in s.grants then s.(grants := s.grants[id := s.grants[id].(status := status)]) else s
    case ControlSet(stop, reason) => s.(control := Control(stop, reason))
    case SendRecorded(id, target, at) => s.(sent := s.sent + [Sent(id, target, at)])
  }

  function Replay(log: seq<Event>): State {
    if log == [] then EMPTY else ApplyEvent(Replay(log[..|log| - 1]), log[|log| - 1])
  }

  lemma ReplayAppend(log: seq<Event>, e: Event)
    ensures Replay(log + [e]) == ApplyEvent(Replay(log), e)
  {
    assert (log + [e])[..|log|] == log;
  }

  /** The calls of the store. pause, resume and revoke are the three statuses of SetStatus. */
  datatype Call =
    | Add(grant: Grant)
    | SetStatus(id: GrantId, status: Status)
    | SetEmergencyStop(enabled: bool, reason: string)
    | RecordSent(id: GrantId, target: nat, at: Time)

  /** What a call does to memory; SetStatus of an unknown grant raises KeyError first. */
  function Perform(s: State, c: Call): State {
    match c
    case Add(g) => s.(grants := s.grants[g.id := g])
    case SetStatus(id, status) =>
      if id in s.grants then s.(grants := s.grants[id := s.grants[id].(status := status)]) else s
    case SetEmergencyStop(enabled, reason) => s.(control := Control(enabled, reason))
    case RecordSent(id, target, at) => s.(sent := s.sent + [Sent(id, target, at)])
  }

  /** What a call appends to the log. */
  function Logged(s: State, c: Call): seq<Event> {
    match c
    case Add(g) => [GrantAdded(g)]
    case SetStatus(id, status) => if id in s.grants then [GrantStatus(id, status)] else []
    case SetEmergencyStop(enabled, reason) => [ControlSet(enabled, reason)]
    case RecordSent(id, target, at) => [SendRecorded(id, target, at)]
  }

  /** Memory and log after a sequence of calls, failed ones included. */
  function After(calls: seq<Call>): (State, seq<Event>) {
    if calls == [] then (EMPTY, [])
    else
      var (s, log) := After(calls[..|calls| - 1]);
      var c := calls[|calls| - 1];
      (Perform(s, c), log + Logged(s, c))
  }

  lemma CallKeepsAgreement(s: State, log: seq<Event>, c: Call)
    requires Replay(log) == s
    ensures Replay(log + Logged(s, c)) == Perform(s, c)
  {
    if Logged(s, c) == [] {
      assert log + [] == log;
    } else {
      ReplayAppend(log, Logged(s, c)[0]);
      assert Logged(s, c) == [Logged(s, c)[0]];
    }
  }

  /** After any sequence of calls, a fresh store loaded from the log holds the same grants,
      sent events and control state as the one in memory. */
  lemma {:induction false} ReloadAgrees(calls: seq<Call>)
    ensures Replay(After(calls).1) == After(calls).0
  {
    if calls != [] {
      var front := calls[..|calls| - 1];
      ReloadAgrees(front);
      CallKeepsAgreement(After(front).0, After(front).1, calls[|calls| - 1]);
    }
  }

  /* ---- the window count ---- */

  function InWindow(id: GrantId, now: Time, window: int): Sent -> bool {
    (e: Sent) => e.grant == id && 0 <= now - e.at <= Max(window, 0)
  }

  function SentInWindow(s: State, id: GrantId, now: Time, window: int): nat { Count(s.sent, InWindow(id, now, window)) }

  class FileSocialPermissionStore {
    var grants: map<GrantId, Grant>
    var sentEvents: seq<Sent>
    var control: Control
    var log: seq<Event>               // the lines of the file

    ghost function View(): State reads this { State(grants, sentEvents, control) }

    /** Memory and file agree. */
    ghost predicate Valid() reads this { Replay(log) == View() }

    /** _load: replay the lines of an existing file. */
    constructor (lines: seq<Event>)
      ensures Valid() && log == lines && View() == Replay(lines)
    {
      grants, sentEvents, control, log := map[], [], Control(false, ""), lines;
      new;
      var i := 0;
      while i < |lines|
        invariant 0 <= i <= |lines|
        invariant log == lines && View() == Replay(lines[..i])
      {
        assert lines[..i + 1][..i] == lines[..i];
        ReadLine(lines[i]);
        i := i + 1;
      }
      assert lines[..i] == lines;
    }

    method ReadLine(e: Event)
      modifies this`grants, this`sentEvents, this`control
      ensures View() == ApplyEvent(old(View()), e)
    {
      match e {
        case GrantAdded(g) => grants := grants[g.id := g];
        case GrantStatus(id, status) =>
          if id in grants {
            grants := grants[id := grants[id].(status := status)];
          }
        case ControlSet(stop, reason) => control := Control(stop, reason);
        case SendRecorded(id, target, at) => sentEvents := sentEvents + [Sent(id, target, at)];
      }
    }

    method AddGrant(g: Grant)
      requires Valid()
      modifies this
      ensures Valid() && View() == Perform(old(View()), Add(g)) && log == old(log) + [GrantAdded(g)]
    {
      CallKeepsAgreement(View(), log, Add(g));
      grants := grants[g.id := g];
      log := log + [GrantAdded(g)];
    }

    /** None stands for KeyError. */
    method ChangeStatus(id: GrantId, status: Status) returns (r: Option<Grant>)
      requires Valid()
      modifies this
      ensures Valid() && View() == Perform(old(View()), SetStatus(id, status))
      ensures log == old(log) + Logged(old(View()), SetStatus(id, status))
      ensures r == if id in old(grants) then Some(grants[id]) else None
    {
      if id !in grants {
        return None;
      }
      CallKeepsAgreement(View(), log, SetStatus(id, status));
      grants := grants[id := grants[id].(status := status)];
      log := log + [GrantStatus(id, status)];
      r := Some(grants[id]);
    }

    method EmergencyStop(enabled: bool, reason: string)
      requires Valid()
      modifies this
      ensures Valid() && View() == Perform(old(View()), SetEmergencyStop(enabled, reason))
      ensures log == old(log) + [ControlSet(enabled, reason)]
    {
      CallKeepsAgreement(View(), log, SetEmergencyStop(enabled, reason));
      control := Control(enabled, reason);
      log := log + [ControlSet(enabled, reason)];
    }

    method RecordSend(id: GrantId, target: nat, at: Time)
      requires Valid()
      modifies this
      ensures Valid() && View() == Perform(old(View()), RecordSent(id, target, at))
      ensures log == old(log) + [SendRecorded(id, target, at)]
    {
      CallKeepsAgreement(View(), log, RecordSent(id, target, at));
      sentEvents := sentEvents + [Sent(id, target, at)];
      log := log + [SendRecorded(id, target, at)];
    }

    method CountSentInWindow(id: GrantId, now: Time, window: int) returns (count: nat)
      ensures count == SentInWindow(View(), id, now, window)
    {
      count := 0;
      var i := 0;
      while i < |sentEvents|
        invariant 0 <= i <= |sentEvents|
        invariant count == Count(sentEvents[..i], InWindow(id, now, window))
      {
        var e := sentEvents[i];
        CountAppend(sentEvents[..i], e, InWindow(id, now, window));
        assert sentEvents[..i + 1] == sentEvents[..i] + [e];
        if e.grant == id && 0 <= now - e.at <= Max(window, 0) {
          count := count + 1;
        }
        i := i + 1;
      }
      assert sentEvents[..i] == sentEvents;
    }
  }

  /* ---- judgement and gate ---- */

  datatype Action = IGNORE | STAY_READ_ONLY | WAIT | DRAFT | REPLY | SEND | ASK_NIKITA

  datatype Facts = Facts(
    addressed: bool, hasValueToAdd: bool, recentMessagesSent: nat, repeatsObvious: bool,
    conflictOrPrivate: bool, privacyRisk: bool, toneOk: bool)

  datatype Judgement = Judgement(action: Action, canSend: bool)

  /** SocialJudgement.evaluate. */
  function Judge(item: Facts, g: Grant, now: Time): Judgement {
    if !IsActive(g, now) then Judgement(ASK_NIKITA, false)
    else if item.privacyRisk || item.conflictOrPrivate then Judgement(ASK_NIKITA, false)
    else if item.recentMessagesSent >= g.maxMessages then Judgement(WAIT, false)
    else if item.repeatsObvious || !item.toneOk then Judgement(DRAFT, false)
    else if REPLY_IF_ADDRESSED in g.scopes then
      if !item.addressed then Judgement(STAY_READ_ONLY, false)
      else if item.hasValueToAdd then Judgement(REPLY, true)
      else Judgement(IGNORE, false)
    else if FREE_CONVERSATION in g.scopes || (INITIATE_OCCASIONALLY in g.scopes && item.hasValueToAdd)
    then Judgement(SEND, true)
    else Judgement(STAY_READ_ONLY, false)
  }

  datatype Request = Request(target: nat, scope: Scope, topic: string, facts: Facts)

  datatype Blocked =
    | EmergencyStopped | MissingActiveGrant | TopicForbidden | TopicNotAllowed | JudgementSays(action: Action)

  datatype GateResult = Allowed(grant: GrantId) | Refused(why: Blocked)

  ghost predicate Candidate(s: State, target: nat, scope: Scope, now: Time, g: GrantId) {
    g in s.grants && s.grants[g].target == target && Permits(s.grants[g], scope, now)
  }

  /** The first candidate in the order of the ids. */
  ghost predicate IsMatching(s: State, target: nat, scope: Scope, now: Time, g: GrantId) {
    Candidate(s, target, scope, now, g) && forall h :: Candidate(s, target, scope, now, h) ==> g <= h
  }

  ghost function MatchingGrant(s: State, target: nat, scope: Scope, now: Time): Option<GrantId> {
    if exists g :: IsMatching(s, target, scope, now, g)
    then
      var g :| IsMatching(s, target, scope, now, g);
      Some(g)
    else None
  }

  function TopicBlock(g: Grant, topic: string): Option<Blocked> {
    if topic == "" then None
    else if topic in g.forbiddenTopics then Some(TopicForbidden)
    else if g.allowedTopics != {} && topic !in g.allowedTopics then Some(TopicNotAllowed)
    else None
  }

  /** SocialSendGate.evaluate. */
  ghost function Evaluate(s: State, r: Request, now: Time): GateResult {
    if s.control.emergencyStop then Refused(EmergencyStopped)
    else
      var found := MatchingGrant(s, r.target, r.scope, now);
      if found.None? then Refused(MissingActiveGrant)
      else
        var g := s.grants[found.value];
        var blocked := TopicBlock(g, r.topic);
        if blocked.Some? then Refused(blocked.value)
        else
          var recent := Max(r.facts.recentMessagesSent, SentInWindow(s, found.value, now, g.window));
          var j := Judge(r.facts.(recentMessagesSent := recent), g, now);
          if j.canSend then Allowed(found.value) else Refused(JudgementSays(j.action))
  }

  lemma {:induction false} LeastOf(ids: set<GrantId>) returns (least: GrantId)
    requires ids != {}
    ensures least in ids && forall g :: g in ids ==> least <= g
  {
    var g :| g in ids;
    if ids == {g} {
      least := g;
    } else {
      var rest := LeastOf(ids - {g});
      least := Min(g, rest);
      assert ids == (ids - {g}) + {g};
    }
  }

  /** A grant is missed only when none permits the scope on the target. */
  lemma MatchingGrantComplete(s: State, target: nat, scope: Scope, now: Time)
    ensures MatchingGrant(s, target, scope, now).None? <==> forall g :: !Candidate(s, target, scope, now, g)
  {
    var candidates := set g | g in s.grants && Candidate(s, target, scope, now, g);
    if candidates != {} {
      var least := LeastOf(candidates);
      forall h | Candidate(s, target, scope, now, h)
        ensures least <= h
      {
        assert h in candidates;
      }
      assert IsMatching(s, target, scope, now, least);
    } else {
      forall g
        ensures !Candidate(s, target, scope, now, g)
      {
        assert g !in candidates;
      }
    }
  }

  lemma MatchingGrantIs(s: State, target: nat, scope: Scope, now: Time, id: GrantId)
    ensures MatchingGrant(s, target, scope, now) == Some(id) <==> IsMatching(s, target, scope, now, id)
  {
    if MatchingGrant(s, target, scope, now).Some? {
      var found := MatchingGrant(s, target, scope, now).value;
      assert IsMatching(s, target, scope, now, found);
      assert IsMatching(s, target, scope, now, id) ==> found <= id <= found;
    }
  }

  /* ---- what the gate's answers mean ---- */

  /** In the grant's own fields: it is for the target, names the scope, is active and not expired. */
  predicate InForce(g: Grant, target: nat, scope: Scope, now: Time) {
    && g.target == target && scope in g.scopes && g.status == ACTIVE
    && (g.expiresAt == None || now < g.expiresAt.value)
  }

  /** The first stored grant in force, in the order of the ids. */
  ghost predicate FirstInForce(s: State, target: nat, scope: Scope, now: Time, id: GrantId) {
    && id in s.grants && InForce(s.grants[id], target, scope, now)
    && forall h :: h in s.grants && InForce(s.grants[h], target, scope, now) ==> id <= h
  }

  lemma MatchingIsFirstInForce(s: State, target: nat, scope: Scope, now: Time, id: GrantId)
    ensures IsMatching(s, target, scope, now, id) <==> FirstInForce(s, target, scope, now, id)
    ensures MatchingGrant(s, target, scope, now) == Some(id) <==> FirstInForce(s, target, scope, now, id)
  {
    assert forall h ::
        Candidate(s, target, scope, now, h) <==> h in s.grants && InForce(s.grants[h], target, scope, now);
    MatchingGrantIs(s, target, scope, now, id);
  }

  /** No stored grant is in force for the target and scope, so none is found. */
  lemma NoneInForce(s: State, target: nat, scope: Scope, now: Time)
    ensures MatchingGrant(s, target, scope, now).None?
       <==> forall id :: id in s.grants ==> !InForce(s.grants[id], target, scope, now)
  {
    MatchingGrantComplete(s, target, scope, now);
    assert forall h ::
        Candidate(s, target, scope, now, h) <==> h in s.grants && InForce(s.grants[h], target, scope, now);
  }

  /** The topic, if any, is not forbidden, and it is among the allowed ones if there are any. */
  predicate TopicPermitted(g: Grant, topic: string) {
    topic != "" ==> topic !in g.forbiddenTopics && (g.allowedTopics != {} ==> topic in g.allowedTopics)
  }

  /** A grant to reply needs to be addressed and to have something to add; otherwise free
      conversation suffices, and so does initiating occasionally with something to add. */
  predicate MaySpeak(g: Grant, facts: Facts) {
    if REPLY_IF_ADDRESSED in g.scopes then facts.addressed && facts.hasValueToAdd
    else FREE_CONVERSATION in g.scopes || (INITIATE_OCCASIONALLY in g.scopes && facts.hasValueToAdd)
  }

  /** The grant's sends of the closed window that ends now. */
  ghost predicate RoomInWindow(s: State, id: GrantId, now: Time)
    requires id in s.grants
  {
    Count(s.sent, (e: Sent) => e.grant == id && now - Max(s.grants[id].window, 0) <= e.at <= now)
    < s.grants[id].maxMessages
  }

  lemma RoomIsCounted(s: State, id: GrantId, now: Time)
    requires id in s.grants
    ensures RoomInWindow(s, id, now) <==> SentInWindow(s, id, now, s.grants[id].window) < s.grants[id].maxMessages
  {
    var p := (e: Sent) => e.grant == id && now - Max(s.grants[id].window, 0) <= e.at <= now;
    var q := InWindow(id, now, s.grants[id].window);
    CountMono(s.sent, p, q);
    CountMono(s.sent, q, p);
  }

  /** Gate and judgement together allow a send under a grant if and only if there is no
      emergency stop, the grant is the first one in force for target and scope, it permits the
      topic, its window has room by the log and by the caller's count, nothing speaks against
      privacy, conflict, novelty or tone, and its scopes let it speak. */
  lemma AllowedMeans(s: State, r: Request, now: Time, id: GrantId)
    ensures Evaluate(s, r, now) == Allowed(id) <==>
            && !s.control.emergencyStop
            && FirstInForce(s, r.target, r.scope, now, id)
            && TopicPermitted(s.grants[id], r.topic)
            && RoomInWindow(s, id, now)
            && r.facts.recentMessagesSent < s.grants[id].maxMessages
            && !r.facts.privacyRisk && !r.facts.conflictOrPrivate && !r.facts.repeatsObvious && r.facts.toneOk
            && MaySpeak(s.grants[id], r.facts)
  {
    MatchingIsFirstInForce(s, r.target, r.scope, now, id);
    if id in s.grants {
      RoomIsCounted(s, id, now);
    }
  }

  /** Why a send is refused before it is judged: the emergency stop first, then a missing grant,
      then the topic. */
  lemma RefusedMeans(s: State, r: Request, now: Time, id: GrantId)
    ensures Evaluate(s, r, now) == Refused(EmergencyStopped) <==> s.control.emergencyStop
    ensures Evaluate(s, r, now) == Refused(MissingActiveGrant) <==>
            !s.control.emergencyStop
            && forall h :: h in s.grants ==> !InForce(s.grants[h], r.target, r.scope, now)
    ensures !s.control.emergencyStop && FirstInForce(s, r.target, r.scope, now, id) ==>
              && (Evaluate(s, r, now) == Refused(TopicForbidden) <==>
                    r.topic != "" && r.topic in s.grants[id].forbiddenTopics)
              && (Evaluate(s, r, now) == Refused(TopicNotAllowed) <==>
                    r.topic != "" && r.topic !in s.grants[id].forbiddenTopics
                    && s.grants[id].allowedTopics != {} && r.topic !in s.grants[id].allowedTopics)
  {
    MatchingIsFirstInForce(s, r.target, r.scope, now, id);
    NoneInForce(s, r.target, r.scope, now);
  }

  /** The judgement, fact by fact: what it refuses to answer, to send at once, or to say at all. */
  lemma JudgementMeans(item: Facts, g: Grant, now: Time)
    ensures var j := Judge(item, g, now);
            var active := g.status == ACTIVE && (g.expiresAt == None || now < g.expiresAt.value);
            var risky := item.privacyRisk || item.conflictOrPrivate;
            var full := item.recentMessagesSent >= g.maxMessages;
            var unready := item.repeatsObvious || !item.toneOk;
            var fit := active && !risky && !full && !unready;
            && (j.canSend <==> fit && MaySpeak(g, item))
            && (j.action == ASK_NIKITA <==> !active || risky)
            && (j.action == WAIT <==> active && !risky && full)
            && (j.action == DRAFT <==> active && !risky && !full && unready)
            && (j.action == REPLY <==> fit && MaySpeak(g, item) && REPLY_IF_ADDRESSED in g.scopes)
            && (j.action == SEND <==> fit && MaySpeak(g, item) && REPLY_IF_ADDRESSED !in g.scopes)
            && (j.action == IGNORE <==>
                  fit && REPLY_IF_ADDRESSED in g.scopes && item.addressed && !item.hasValueToAdd)
            && (j.action == STAY_READ_ONLY <==>
                  fit && !MaySpeak(g, item) && !(REPLY_IF_ADDRESSED in g.scopes && item.addressed))
  {
  }

  /** A request that passes stop, grant and topic gets the judgement's verdict, on the larger of
      the two counts. */
  lemma JudgedMeans(s: State, r: Request, now: Time, id: GrantId)
    requires !s.control.emergencyStop && FirstInForce(s, r.target, r.scope, now, id)
    requires TopicPermitted(s.grants[id], r.topic)
    ensures var e := Evaluate(s, r, now);
            e == Allowed(id)
            || exists recent: nat ::
                 && (recent >= s.grants[id].maxMessages <==>
                       !RoomInWindow(s, id, now) || r.facts.recentMessagesSent >= s.grants[id].maxMessages)
                 && e == Refused(JudgementSays(Judge(r.facts.(recentMessagesSent := recent), s.grants[id], now).action))
  {
    MatchingIsFirstInForce(s, r.target, r.scope, now, id);
    RoomIsCounted(s, id, now);
    var recent := Max(r.facts.recentMessagesSent, SentInWindow(s, id, now, s.grants[id].window));
    assert recent >= s.grants[id].maxMessages <==>
           !RoomInWindow(s, id, now) || r.facts.recentMessagesSent >= s.grants[id].maxMessages;
  }

  /** When the grants for a target and scope are paused, revoked or expired, every request is refused. */
  lemma OutOfForceIsRefused(s: State, r: Request, now: Time)
    requires forall h :: h in s.grants && s.grants[h].target == r.target && r.scope in s.grants[h].scopes ==>
               s.grants[h].status != ACTIVE || (s.grants[h].expiresAt.Some? && s.grants[h].expiresAt.value <= now)
    ensures Evaluate(s, r, now) == Refused(if s.control.emergencyStop then EmergencyStopped else MissingActiveGrant)
  {
    RefusedMeans(s, r, now, 0);
  }

  /** Pausing or revoking the only grant for a target and scope refuses every later request. */
  lemma WithdrawnIsRefused(s: State, id: GrantId, status: Status, r: Request, now: Time)
    requires id in s.grants && status != ACTIVE
    requires forall h :: h in s.grants && h != id ==> s.grants[h].target != r.target || r.scope !in s.grants[h].scopes
    ensures var s' := Perform(s, SetStatus(id, status));
            Evaluate(s', r, now) == Refused(if s.control.emergencyStop then EmergencyStopped else MissingActiveGrant)
  {
    OutOfForceIsRefused(Perform(s, SetStatus(id, status)), r, now);
  }

  /** Resuming it, unexpired and with room, lets the same request through. */
  lemma ResumedIsAllowed(s: State, id: GrantId, r: Request, now: Time)
    requires id in s.grants && !s.control.emergencyStop
    requires forall h :: h in s.grants && h != id ==> s.grants[h].target != r.target || r.scope !in s.grants[h].scopes
    requires s.grants[id].target == r.target && r.scope in s.grants[id].scopes
    requires s.grants[id].expiresAt == None || now < s.grants[id].expiresAt.value
    requires TopicPermitted(s.grants[id], r.topic) && RoomInWindow(s, id, now) && MaySpeak(s.grants[id], r.facts)
    requires r.facts.recentMessagesSent < s.grants[id].maxMessages
    requires !r.facts.privacyRisk && !r.facts.conflictOrPrivate && !r.facts.repeatsObvious && r.facts.toneOk
    ensures Evaluate(Perform(s, SetStatus(id, ACTIVE)), r, now) == Allowed(id)
  {
    AllowedMeans(Perform(s, SetStatus(id, ACTIVE)), r, now, id);
  }

  /** The emergency stop refuses everything, and lifting it restores the decisions from before. */
  lemma StopRefusesAll(s: State, r: Request, reason: string, lifted: string, now: Time)
    ensures var stopped := Perform(s, SetEmergencyStop(true, reason));
            && Evaluate(stopped, r, now) == Refused(EmergencyStopped)
            && (!s.control.emergencyStop ==>
                  Evaluate(Perform(stopped, SetEmergencyStop(false, lifted)), r, now) == Evaluate(s, r, now))
  {
    var again := Perform(Perform(s, SetEmergencyStop(true, reason)), SetEmergencyStop(false, lifted));
    assert again.grants == s.grants && again.sent == s.sent;
    if !s.control.emergencyStop {
      SameDecision(s, again, r, now);
    }
  }

  lemma SameDecision(s: State, t: State, r: Request, now: Time)
    requires s.grants == t.grants && s.sent == t.sent && s.control.emergencyStop == t.control.emergencyStop
    ensures Evaluate(s, r, now) == Evaluate(t, r, now)
  {
    var a, b := MatchingGrant(s, r.target, r.scope, now), MatchingGrant(t, r.target, r.scope, now);
    assert forall h :: Candidate(s, r.target, r.scope, now, h) <==> Candidate(t, r.target, r.scope, now, h);
    if a.Some? {
      MatchingGrantIs(s, r.target, r.scope, now, a.value);
      assert IsMatching(t, r.target, r.scope, now, a.value);
      MatchingGrantIs(t, r.target, r.scope, now, a.value);
    } else if b.Some? {
      MatchingGrantIs(t, r.target, r.scope, now, b.value);
      assert IsMatching(s, r.target, r.scope, now, b.value);
    }
  }

  /** Restarting the process changes no decision. */
  lemma DecisionsSurviveRestart(calls: seq<Call>, r: Request, now: Time)
    ensures Evaluate(Replay(After(calls).1), r, now) == Evaluate(After(calls).0, r, now)
  {
    ReloadAgrees(calls);
  }
}
