/** The sliding-window limit under delayed recording: a send is checked by the gate, then made
    and recorded later, while other checks and records interleave. */
module RateLimit {
  import opened Common
  import opened Social

  datatype Approval = Approval(grant: GrantId, target: nat)

  /** Memory, log, the approvals given but not yet recorded, and the clock. */
  datatype Sys = Sys(store: State, log: seq<Event>, pending: map<nat, Approval>, next: nat, clock: Time)

  const INIT := Sys(EMPTY, [], map[], 0, 0)

  datatype Step =
    | Configure(call: Call)           // add, pause, resume, revoke, emergency stop
    | Check(request: Request, now: Time)
    | Record(approval: nat, now: Time)
    | Abandon(approval: nat)          // the send failed: never recorded
    | Reload                          // a new process reads the log

  ghost function Next(s: Sys, step: Step): Sys {
    match step
    case Configure(call) => s.(store := Perform(s.store, call), log := s.log + Logged(s.store, call))
    case Check(request, now) =>
      var r := Evaluate(s.store, request, now);
      if r.Allowed?
      then s.(pending := s.pending[s.next := Approval(r.grant, request.target)], next := s.next + 1, clock := now)
      else s.(clock := now)
    case Record(k, now) =>
      if k !in s.pending then s
      else
        var call := RecordSent(s.pending[k].grant, s.pending[k].target, now);
        s.(store := Perform(s.store, call), log := s.log + Logged(s.store, call),
           pending := s.pending - {k}, clock := now)
    case Abandon(k) => s.(pending := s.pending - {k})
    case Reload => s.(store := Replay(s.log))
  }

  ghost function Run(steps: seq<Step>): Sys {
    if steps == [] then INIT else Next(Run(steps[..|steps| - 1]), steps[|steps| - 1])
  }

  function PendingFor(s: Sys, g: GrantId): set<nat> { set k | k in s.pending && s.pending[k].grant == g }

  /** The conditions of the bound, for grant `g` with limit `max` per `window`: sends are
      recorded through approvals only, the grant is only ever added with these parameters,
      the clock never runs backwards, and at most `c` approvals are outstanding. */
  ghost predicate Admissible(s: Sys, step: Step, g: GrantId, max: nat, window: int, c: nat) {
    && (step.Configure? ==> !step.call.RecordSent?)
    && (step.Configure? && step.call.Add? && step.call.grant.id == g
        ==> step.call.grant.maxMessages == max && step.call.grant.window == window)
    && (step.Check? || step.Record? ==> s.clock <= step.now)
    && |PendingFor(Next(s, step), g)| <= c
  }

  ghost predicate AdmissibleRun(steps: seq<Step>, g: GrantId, max: nat, window: int, c: nat) {
    forall n :: 0 <= n < |steps| ==> Admissible(Run(steps[..n]), steps[n], g, max, window, c)
  }

  function InInterval(g: GrantId, from: Time, window: int): Sent -> bool {
    (e: Sent) => e.grant == g && from <= e.at <= from + window
  }

  /** The sends of `g` recorded in the closed interval [from, from + window]. */
  function SentIn(s: Sys, g: GrantId, from: Time, window: int): nat {
    Count(s.store.sent, InInterval(g, from, window))
  }

  function Bound(max: nat, c: nat): nat { if max == 0 then 0 else max - 1 + c }

  /** Approvals still outstanding count against every interval that has not ended yet. */
  ghost predicate Within(s: Sys, g: GrantId, window: int, bound: nat) {
    forall from: Time ::
      SentIn(s, g, from, window) + (if from + window >= s.clock then |PendingFor(s, g)| else 0) <= bound
  }

  ghost predicate Inv(s: Sys, g: GrantId, max: nat, window: int, c: nat) {
    && Replay(s.log) == s.store
    && (g in s.store.grants ==> s.store.grants[g].maxMessages == max && s.store.grants[g].window == window)
    && (forall e :: e in s.store.sent && e.grant == g ==> e.at <= s.clock)
    && (forall k :: k in s.pending ==> k < s.next)
    && Within(s, g, window, Bound(max, c))
  }

  /** A positive check leaves room: every interval that reaches the present lies inside the
      window the gate counted. */
  lemma CheckLeavesRoom(s: Sys, request: Request, now: Time, g: GrantId, max: nat, window: int, c: nat)
    requires Inv(s, g, max, window, c) && s.clock <= now && window >= 0
    requires Evaluate(s.store, request, now) == Allowed(g)
    ensures max > 0
    ensures forall from: Time :: from + window >= now ==> SentIn(s, g, from, window) <= max - 1
  {
    AllowedMeans(s.store, request, now, g);
    RoomIsCounted(s.store, g, now);
    forall from: Time | from + window >= now
      ensures SentIn(s, g, from, window) <= max - 1
    {
      CountMono(s.store.sent, InInterval(g, from, window), InWindow(g, now, window));
    }
  }

  lemma PendingGrows(s: Sys, a: Approval, g: GrantId)
    requires s.next !in s.pending
    ensures |PendingFor(s.(pending := s.pending[s.next := a]), g)| == |PendingFor(s, g)| + if a.grant == g then 1 else 0
  {
    var s' := s.(pending := s.pending[s.next := a]);
    assert PendingFor(s', g) == PendingFor(s, g) + if a.grant == g then {s.next} else {};
  }

  lemma PendingShrinks(s: Sys, k: nat, g: GrantId)
    ensures |PendingFor(s.(pending := s.pending - {k}), g)|
            == |PendingFor(s, g)| - if k in s.pending && s.pending[k].grant == g then 1 else 0
  {
    assert PendingFor(s.(pending := s.pending - {k}), g) == PendingFor(s, g) - {k};
  }

  lemma CheckKeeps(s: Sys, request: Request, now: Time, g: GrantId, max: nat, window: int, c: nat)
    requires Inv(s, g, max, window, c) && window >= 0
    requires Admissible(s, Check(request, now), g, max, window, c)
    ensures Inv(Next(s, Check(request, now)), g, max, window, c)
  {
    var s' := Next(s, Check(request, now));
    var r := Evaluate(s.store, request, now);
    if r.Allowed? {
      PendingGrows(s, Approval(r.grant, request.target), g);
      assert PendingFor(s', g) == PendingFor(s.(pending := s'.pending), g);
    }
    if r == Allowed(g) {
      CheckLeavesRoom(s, request, now, g, max, window, c);
    } else {
      assert |PendingFor(s', g)| == |PendingFor(s, g)|;
    }
    forall from: Time
      ensures SentIn(s', g, from, window) + (if from + window >= s'.clock then |PendingFor(s', g)| else 0)
          <= Bound(max, c)
    {
      assert SentIn(s', g, from, window) == SentIn(s, g, from, window);
    }
  }

  lemma RecordKeepsWithin(s: Sys, k: nat, now: Time, g: GrantId, window: int, bound: nat)
    requires Within(s, g, window, bound) && k in s.pending && s.clock <= now
    ensures Within(Next(s, Record(k, now)), g, window, bound)
  {
    var s' := Next(s, Record(k, now));
    var a := s.pending[k];
    PendingShrinks(s, k, g);
    assert PendingFor(s', g) == PendingFor(s.(pending := s.pending - {k}), g);
    forall from: Time
      ensures SentIn(s', g, from, window) + (if from + window >= s'.clock then |PendingFor(s', g)| else 0) <= bound
    {
      CountAppend(s.store.sent, Sent(a.grant, a.target, now), InInterval(g, from, window));
      assert SentIn(s, g, from, window) + (if from + window >= s.clock then |PendingFor(s, g)| else 0) <= bound;
    }
  }

  lemma RecordKeeps(s: Sys, k: nat, now: Time, g: GrantId, max: nat, window: int, c: nat)
    requires Inv(s, g, max, window, c) && k in s.pending && s.clock <= now
    ensures Inv(Next(s, Record(k, now)), g, max, window, c)
  {
    var a := s.pending[k];
    CallKeepsAgreement(s.store, s.log, RecordSent(a.grant, a.target, now));
    RecordKeepsWithin(s, k, now, g, window, Bound(max, c));
  }

  lemma StepKeeps(s: Sys, step: Step, g: GrantId, max: nat, window: int, c: nat)
    requires Inv(s, g, max, window, c) && window >= 0 && Admissible(s, step, g, max, window, c)
    ensures Inv(Next(s, step), g, max, window, c)
  {
    match step
    case Check(request, now) => CheckKeeps(s, request, now, g, max, window, c);
    case Record(k, now) =>
      if k in s.pending {
        RecordKeeps(s, k, now, g, max, window, c);
      }
    case Configure(call) =>
      var s' := Next(s, step);
      CallKeepsAgreement(s.store, s.log, call);
      assert PendingFor(s', g) == PendingFor(s, g);
      assert forall from: Time :: SentIn(s', g, from, window) == SentIn(s, g, from, window);
    case Abandon(k) =>
      var s' := Next(s, step);
      PendingShrinks(s, k, g);
      assert forall from: Time :: SentIn(s', g, from, window) == SentIn(s, g, from, window);
    case Reload =>
  }

  lemma {:induction false} RunKeeps(steps: seq<Step>, g: GrantId, max: nat, window: int, c: nat)
    requires window >= 0 && AdmissibleRun(steps, g, max, window, c)
    ensures Inv(Run(steps), g, max, window, c)
  {
    if steps == [] {
      assert PendingFor(INIT, g) == {};
    } else {
      var front := steps[..|steps| - 1];
      forall n | 0 <= n < |front|
        ensures Admissible(Run(front[..n]), front[n], g, max, window, c)
      {
        assert front[..n] == steps[..n];
      }
      RunKeeps(front, g, max, window, c);
      StepKeeps(Run(front), steps[|steps| - 1], g, max, window, c);
    }
  }

  /** In every run, any interval of the grant's window length holds at most max - 1 + c of its
      sends, where c bounds the approvals outstanding at once; restarts included. */
  lemma SlidingWindowBound(steps: seq<Step>, g: GrantId, max: nat, window: int, c: nat, from: Time)
    requires window >= 0 && AdmissibleRun(steps, g, max, window, c)
    ensures SentIn(Run(steps), g, from, window) <= Bound(max, c)
  {
    RunKeeps(steps, g, max, window, c);
  }

  /** Without concurrent approvals the configured limit holds exactly as configured. */
  lemma OneAtATimeKeepsTheLimit(steps: seq<Step>, g: GrantId, max: nat, window: int, from: Time)
    requires window >= 0 && AdmissibleRun(steps, g, max, window, 1)
    ensures SentIn(Run(steps), g, from, window) <= max
  {
    SlidingWindowBound(steps, g, max, window, 1, from);
  }

  /* ---- the bound is attained ---- */

  /** The gate raises no objection to the request under the grant, but for its window. */
  predicate Welcome(grant: Grant, request: Request) {
    && InForce(grant, request.target, request.scope, 0) && TopicPermitted(grant, request.topic)
    && request.facts.recentMessagesSent == 0 && MaySpeak(grant, request.facts)
    && !request.facts.privacyRisk && !request.facts.conflictOrPrivate && !request.facts.repeatsObvious
    && request.facts.toneOk
  }

  /** At time 0, with the one grant stored, `k` sends are recorded and `n` more are approved. */
  ghost predicate Bursting(s: Sys, grant: Grant, k: nat, n: nat) {
    && s.store.grants == map[grant.id := grant] && !s.store.control.emergencyStop && s.clock == 0
    && |s.store.sent| == k && (forall e :: e in s.store.sent ==> e.grant == grant.id && e.at == 0)
    && |s.pending.Keys| == n && (forall j :: j in s.pending ==> j < s.next && s.pending[j].grant == grant.id)
  }

  lemma CheckApproves(s: Sys, grant: Grant, request: Request, k: nat, n: nat)
    requires Bursting(s, grant, k, n) && Welcome(grant, request) && k < grant.maxMessages
    ensures Bursting(Next(s, Check(request, 0)), grant, k, n + 1)
  {
    CountAll(s.store.sent, InWindow(grant.id, 0, grant.window));
    RoomIsCounted(s.store, grant.id, 0);
    assert FirstInForce(s.store, request.target, request.scope, 0, grant.id);
    AllowedMeans(s.store, request, 0, grant.id);
    assert Next(s, Check(request, 0)).pending.Keys == s.pending.Keys + {s.next};
  }

  lemma RecordSends(s: Sys, grant: Grant, j: nat, k: nat, n: nat)
    requires Bursting(s, grant, k, n) && j in s.pending
    ensures n > 0 && Bursting(Next(s, Record(j, 0)), grant, k + 1, n - 1)
  {
    assert s.pending.Keys == (s.pending - {j}).Keys + {j};
  }

  lemma Snoc(steps: seq<Step>, step: Step, g: GrantId, max: nat, window: int, c: nat)
    requires AdmissibleRun(steps, g, max, window, c) && Admissible(Run(steps), step, g, max, window, c)
    ensures Run(steps + [step]) == Next(Run(steps), step)
    ensures AdmissibleRun(steps + [step], g, max, window, c)
  {
    var all := steps + [step];
    assert all[..|steps|] == steps;
    forall n | 0 <= n < |all|
      ensures Admissible(Run(all[..n]), all[n], g, max, window, c)
    {
      if n < |steps| {
        assert all[..n] == steps[..n];
      }
    }
  }

  ghost predicate BurstRun(steps: seq<Step>, grant: Grant, c: nat, k: nat, n: nat) {
    && AdmissibleRun(steps, grant.id, grant.maxMessages, grant.window, c)
    && Bursting(Run(steps), grant, k, n)
  }

  lemma AllPending(s: Sys, grant: Grant, k: nat, n: nat)
    requires Bursting(s, grant, k, n)
    ensures |PendingFor(s, grant.id)| == n
  {
    assert PendingFor(s, grant.id) == s.pending.Keys;
  }

  lemma Opening(grant: Grant, c: nat) returns (steps: seq<Step>)
    ensures BurstRun(steps, grant, c, 0, 0)
  {
    var add := Configure(Add(grant));
    assert PendingFor(INIT, grant.id) == {};
    assert PendingFor(Next(INIT, add), grant.id) == {};
    Snoc([], add, grant.id, grant.maxMessages, grant.window, c);
    steps := [] + [add];
  }

  lemma Approve(steps: seq<Step>, grant: Grant, request: Request, c: nat, k: nat, n: nat) returns (more: seq<Step>)
    requires BurstRun(steps, grant, c, k, n) && Welcome(grant, request) && k < grant.maxMessages && n < c
    ensures BurstRun(more, grant, c, k, n + 1)
  {
    CheckApproves(Run(steps), grant, request, k, n);
    AllPending(Next(Run(steps), Check(request, 0)), grant, k, n + 1);
    Snoc(steps, Check(request, 0), grant.id, grant.maxMessages, grant.window, c);
    more := steps + [Check(request, 0)];
  }

  lemma Send(steps: seq<Step>, grant: Grant, c: nat, k: nat, n: nat) returns (more: seq<Step>)
    requires BurstRun(steps, grant, c, k, n) && 0 < n <= c
    ensures BurstRun(more, grant, c, k + 1, n - 1)
  {
    var j :| j in Run(steps).pending.Keys;
    RecordSends(Run(steps), grant, j, k, n);
    AllPending(Next(Run(steps), Record(j, 0)), grant, k + 1, n - 1);
    Snoc(steps, Record(j, 0), grant.id, grant.maxMessages, grant.window, c);
    more := steps + [Record(j, 0)];
  }

  /** The bound is exact: whatever the limit, the window and the number of approvals that may
      be outstanding, some run brings all of max - 1 + c sends into one interval. */
  lemma BoundIsAttained(grant: Grant, request: Request, c: nat) returns (steps: seq<Step>)
    requires Welcome(grant, request) && grant.window >= 0 && c > 0
    ensures AdmissibleRun(steps, grant.id, grant.maxMessages, grant.window, c)
    ensures SentIn(Run(steps), grant.id, 0, grant.window) == Bound(grant.maxMessages, c)
  {
    steps := Opening(grant, c);
    var k, n := 0, 0;
    while k < grant.maxMessages - 1
      invariant k <= Max(0, grant.maxMessages - 1) && BurstRun(steps, grant, c, k, 0)
    {
      steps := Approve(steps, grant, request, c, k, 0);
      steps := Send(steps, grant, c, k, 1);
      k := k + 1;
    }
    if grant.maxMessages > 0 {
      while n < c
        invariant n <= c && BurstRun(steps, grant, c, k, n)
      {
        steps := Approve(steps, grant, request, c, k, n);
        n := n + 1;
      }
      while n > 0
        invariant n <= c && k + n == grant.maxMessages - 1 + c && BurstRun(steps, grant, c, k, n)
      {
        steps := Send(steps, grant, c, k, n);
        k, n := k + 1, n - 1;
      }
    }
    CountAll(Run(steps).store.sent, InInterval(grant.id, 0, grant.window));
  }

  /** For a grant that lets anything be sent, every run keeps the configured limit if and only if
      no two approvals may be outstanding at once. */
  lemma LimitKeptIff(grant: Grant, request: Request, c: nat)
    requires Welcome(grant, request) && grant.window >= 0 && grant.maxMessages > 0 && c > 0
    ensures (forall steps, from: Time :: AdmissibleRun(steps, grant.id, grant.maxMessages, grant.window, c)
               ==> SentIn(Run(steps), grant.id, from, grant.window) <= grant.maxMessages)
       <==> c == 1
  {
    if c == 1 {
      forall steps, from: Time | AdmissibleRun(steps, grant.id, grant.maxMessages, grant.window, c)
        ensures SentIn(Run(steps), grant.id, from, grant.window) <= grant.maxMessages
      {
        SlidingWindowBound(steps, grant.id, grant.maxMessages, grant.window, 1, from);
      }
    } else {
      var steps := BoundIsAttained(grant, request, c);
      assert SentIn(Run(steps), grant.id, 0, grant.window) > grant.maxMessages;
    }
  }
}
