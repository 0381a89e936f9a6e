/** The autonomy policy (src/agency/policy.py) over the action values of src/agency/models.py. */
module Autonomy {
  import opened Common
  import Social

  type Time = int

  datatype ActionKind =
    | READ_WORKSPACE | SEARCH_KB | WEB_RESEARCH | TELEGRAM_MCP_READ | TELEGRAM_MCP_SEND
    | DRAFT_MESSAGE | CREATE_SPEC | STAGE_MEMORY

  /** `target` None is the empty target id. */
  datatype Action = Action(
    kind: ActionKind, capability: string, target: Option<nat>, description: string,
    sideEffect: bool, riskTier: int, scope: Option<Social.Scope>, needsJudgement: bool)

  datatype Request = Request(target: Option<nat>, scope: Social.Scope, reason: string)

  datatype Verdict = AUTO | ASK_NIKITA | APPROVAL_REQUIRED | BLOCKED

  datatype Decision = Decision(
    verdict: Verdict, allowed: seq<Action>, blocked: seq<Action>, request: Option<Request>,
    auditTarget: Option<nat>, auditGrant: Option<Social.GrantId>)

  /** The standing facts a decision is taken under. */
  datatype Setting = Setting(emergencyStop: bool, grants: seq<Social.Grant>, now: Time)

  predicate Covers(g: Social.Grant, target: Option<nat>, scope: Social.Scope, now: Time) {
    target == Some(g.target) && Social.Permits(g, scope, now)
  }

  /** The first grant that covers the target and the scope. */
  function FindGrantSpec(grants: seq<Social.Grant>, target: Option<nat>, scope: Social.Scope,
                         now: Time): Option<Social.Grant> {
    if grants == [] then None
    else
      var found := FindGrantSpec(grants[..|grants| - 1], target, scope, now);
      var last := grants[|grants| - 1];
      if found.Some? then found else if Covers(last, target, scope, now) then Some(last) else None
  }

  lemma {:induction false} FindGrantComplete(grants: seq<Social.Grant>, target: Option<nat>, scope: Social.Scope,
                                             now: Time)
    ensures var found := FindGrantSpec(grants, target, scope, now);
            && (found.None? ==> forall g :: g in grants ==> !Covers(g, target, scope, now))
            && (found.Some? ==>
                  exists n ::
                    && 0 <= n < |grants| && grants[n] == found.value && Covers(grants[n], target, scope, now)
                    && forall m :: 0 <= m < n ==> !Covers(grants[m], target, scope, now))
  {
    if grants != [] {
      var n := |grants| - 1;
      FindGrantComplete(grants[..n], target, scope, now);
      assert grants == grants[..n] + [grants[n]];
    }
  }

  method FindGrant(grants: seq<Social.Grant>, target: Option<nat>, scope: Social.Scope, now: Time)
    returns (r: Option<Social.Grant>)
    ensures r == FindGrantSpec(grants, target, scope, now)
  {
    var i := 0;
    while i < |grants|
      invariant 0 <= i <= |grants| && FindGrantSpec(grants[..i], target, scope, now) == None
    {
      assert grants[..i + 1][..i] == grants[..i];
      if Covers(grants[i], target, scope, now) {
        FoundEarly(grants, i + 1, target, scope, now);
        return Some(grants[i]);
      }
      i := i + 1;
    }
    assert grants[..i] == grants;
    r := None;
  }

  /** A grant found in a prefix is the one found in the whole. */
  lemma {:induction false} FoundEarly(grants: seq<Social.Grant>, n: nat, target: Option<nat>,
                                      scope: Social.Scope, now: Time)
    requires n <= |grants| && FindGrantSpec(grants[..n], target, scope, now).Some?
    ensures FindGrantSpec(grants, target, scope, now) == FindGrantSpec(grants[..n], target, scope, now)
    decreases |grants|
  {
    if n < |grants| {
      var front := grants[..|grants| - 1];
      assert front[..n] == grants[..n];
      FoundEarly(front, n, target, scope, now);
    } else {
      assert grants[..n] == grants;
    }
  }

  /* ---- sorting the actions into buckets ---- */

  datatype Buckets = Buckets(
    allowed: seq<Action>, blocked: seq<Action>, tier3: seq<Action>,
    request: Option<Request>, usedGrant: Option<Social.Grant>)

  const NO_BUCKETS := Buckets([], [], [], None, None)

  function RequestFor(a: Action, scope: Social.Scope): Request {
    Request(a.target, scope, if a.description != "" then a.description else "social action")
  }

  function Judged(a: Action): Action { a.(needsJudgement := true) }

  /** _evaluate_action. */
  function Place(b: Buckets, a: Action, setting: Setting): Buckets {
    if a.riskTier >= 3 then
      if a.sideEffect then b.(tier3 := b.tier3 + [a], blocked := b.blocked + [a])
      else b.(tier3 := b.tier3 + [a], allowed := b.allowed + [a])
    else if !a.sideEffect then b.(allowed := b.allowed + [a])
    else if setting.emergencyStop || a.scope.None? then b.(blocked := b.blocked + [a])
    else
      var grant := FindGrantSpec(setting.grants, a.target, a.scope.value, setting.now);
      if grant.None? then b.(blocked := b.blocked + [a], request := Some(RequestFor(a, a.scope.value)))
      else b.(usedGrant := grant, allowed := b.allowed + [Judged(a)])
  }

  function PlaceAll(actions: seq<Action>, setting: Setting): Buckets {
    if actions == [] then NO_BUCKETS
    else Place(PlaceAll(actions[..|actions| - 1], setting), actions[|actions| - 1], setting)
  }

  class PolicyBuckets {
    var allowed: seq<Action>
    var blocked: seq<Action>
    var tier3: seq<Action>
    var request: Option<Request>
    var usedGrant: Option<Social.Grant>

    function View(): Buckets reads this { Buckets(allowed, blocked, tier3, request, usedGrant) }

    constructor ()
      ensures View() == NO_BUCKETS
    {
      allowed, blocked, tier3, request, usedGrant := [], [], [], None, None;
    }

    method EvaluateAction(a: Action, setting: Setting)
      modifies this
      ensures View() == Place(old(View()), a, setting)
    {
      if a.riskTier >= 3 {
        tier3 := tier3 + [a];
        if a.sideEffect {
          blocked := blocked + [a];
        } else {
          allowed := allowed + [a];
        }
        return;
      }
      if !a.sideEffect {
        allowed := allowed + [a];
        return;
      }
      if setting.emergencyStop {
        blocked := blocked + [a];
        return;
      }
      if a.scope.None? {
        blocked := blocked + [a];
        return;
      }
      var grant := FindGrant(setting.grants, a.target, a.scope.value, setting.now);
      if grant.None? {
        blocked := blocked + [a];
        request := Some(RequestFor(a, a.scope.value));
        return;
      }
      usedGrant := grant;
      allowed := allowed + [Judged(a)];
    }
  }

  /* ---- the decision ---- */

  /** The first target that is not empty. */
  function FirstTarget(actions: seq<Action>): Option<nat> {
    if actions == [] then None
    else if actions[0].target.Some? then actions[0].target
    else FirstTarget(actions[1..])
  }

  function Conclude(b: Buckets, emergencyStop: bool): Decision {
    if emergencyStop && b.blocked != [] then Decision(BLOCKED, b.allowed, b.blocked, None, FirstTarget(b.blocked), None)
    else if b.request.Some? then Decision(ASK_NIKITA, b.allowed, b.blocked, b.request, b.request.value.target, None)
    else if b.tier3 != [] then Decision(ASK_NIKITA, b.allowed, b.blocked, None, FirstTarget(b.tier3), None)
    else if b.blocked != [] then Decision(APPROVAL_REQUIRED, b.allowed, b.blocked, None, FirstTarget(b.blocked), None)
    else Decision(AUTO, b.allowed, [], None, None, if b.usedGrant.Some? then Some(b.usedGrant.value.id) else None)
  }

  function DecideSpec(actions: seq<Action>, setting: Setting): Decision {
    Conclude(PlaceAll(actions, setting), setting.emergencyStop)
  }

  class AutonomyPolicy {
    const emergencyStop: bool

    constructor (emergencyStop: bool)
      ensures this.emergencyStop == emergencyStop
    {
      this.emergencyStop := emergencyStop;
    }

    method Decide(actions: seq<Action>, grants: seq<Social.Grant>, now: Time) returns (d: Decision)
      ensures d == DecideSpec(actions, Setting(emergencyStop, grants, now))
    {
      var setting := Setting(emergencyStop, grants, now);
      var buckets := new PolicyBuckets();
      var i := 0;
      while i < |actions|
        invariant 0 <= i <= |actions|
        invariant buckets.View() == PlaceAll(actions[..i], setting)
      {
        assert actions[..i + 1][..i] == actions[..i];
        buckets.EvaluateAction(actions[i], setting);
        i := i + 1;
      }
      assert actions[..i] == actions;
      d := Conclude(buckets.View(), emergencyStop);
    }
  }

  /* ---- what a decision means ---- */

  /** The n-th standing grant is for the target, names the scope, is active and not expired. */
  ghost predicate GrantedBy(n: int, target: Option<nat>, scope: Social.Scope, setting: Setting) {
    && 0 <= n < |setting.grants| && target == Some(setting.grants[n].target)
    && Social.InForce(setting.grants[n], setting.grants[n].target, scope, setting.now)
  }

  /** A side effect that only a grant could have let through. */
  ghost predicate LacksGrant(a: Action, setting: Setting) {
    && a.sideEffect && a.riskTier < 3 && !setting.emergencyStop && a.scope.Some?
    && forall n :: !GrantedBy(n, a.target, a.scope.value, setting)
  }

  /** No side effect, or one below tier 3 that a grant in force covers, without emergency stop. */
  ghost predicate MayProceed(a: Action, setting: Setting) {
    a.sideEffect ==>
      && a.riskTier < 3 && !setting.emergencyStop && a.scope.Some?
      && exists n :: GrantedBy(n, a.target, a.scope.value, setting)
  }

  /** The search finds the first grant in force, and nothing only when there is none. */
  lemma FoundIsFirst(target: Option<nat>, scope: Social.Scope, setting: Setting)
    ensures var found := FindGrantSpec(setting.grants, target, scope, setting.now);
            && (found.None? <==> forall n :: !GrantedBy(n, target, scope, setting))
            && (found.Some? ==> exists n :: IsFirstGrant(n, target, scope, setting) && setting.grants[n] == found.value)
  {
    FindGrantComplete(setting.grants, target, scope, setting.now);
    forall n | 0 <= n < |setting.grants|
      ensures GrantedBy(n, target, scope, setting) <==> Covers(setting.grants[n], target, scope, setting.now)
    {
    }
    if FindGrantSpec(setting.grants, target, scope, setting.now).Some? {
      var n :| && 0 <= n < |setting.grants|
               && setting.grants[n] == FindGrantSpec(setting.grants, target, scope, setting.now).value
               && Covers(setting.grants[n], target, scope, setting.now)
               && forall m :: 0 <= m < n ==> !Covers(setting.grants[m], target, scope, setting.now);
      assert IsFirstGrant(n, target, scope, setting);
    } else {
      forall n
        ensures !GrantedBy(n, target, scope, setting)
      {
        if 0 <= n < |setting.grants| {
          assert setting.grants[n] in setting.grants;
        }
      }
    }
  }

  ghost predicate IsFirstGrant(n: int, target: Option<nat>, scope: Social.Scope, setting: Setting) {
    GrantedBy(n, target, scope, setting) && forall m :: 0 <= m < n ==> !GrantedBy(m, target, scope, setting)
  }

  /** An action that proceeds on a grant must also pass social judgement. */
  function Admitted(a: Action): Action { if a.sideEffect then a.(needsJudgement := true) else a }

  function AdmittedAll(actions: seq<Action>): seq<Action> {
    if actions == [] then [] else AdmittedAll(actions[..|actions| - 1]) + [Admitted(actions[|actions| - 1])]
  }

  lemma AdmittedAppend(actions: seq<Action>, a: Action)
    ensures AdmittedAll(actions + [a]) == AdmittedAll(actions) + [Admitted(a)]
  {
    assert (actions + [a])[..|actions|] == actions;
  }

  /** The request for the scope the action lacks, in its own words if it has any. */
  ghost predicate RequestsFor(r: Request, a: Action) {
    && r.target == a.target && Some(r.scope) == a.scope
    && (if a.description != "" then r.reason == a.description else r.reason != "")
  }

  lemma PlaceMeans(b: Buckets, a: Action, setting: Setting)
    ensures var b' := Place(b, a, setting);
            && b'.blocked == (if MayProceed(a, setting) then b.blocked else b.blocked + [a])
            && b'.allowed == (if MayProceed(a, setting) then b.allowed + [Admitted(a)] else b.allowed)
            && b'.tier3 == (if a.riskTier >= 3 then b.tier3 + [a] else b.tier3)
            && (if LacksGrant(a, setting) then b'.request.Some? && RequestsFor(b'.request.value, a)
                else b'.request == b.request)
            && (if a.sideEffect && MayProceed(a, setting)
                then exists n :: IsFirstGrant(n, a.target, a.scope.value, setting)
                                 && b'.usedGrant == Some(setting.grants[n])
                else b'.usedGrant == b.usedGrant)
  {
    if a.sideEffect && a.scope.Some? {
      FoundIsFirst(a.target, a.scope.value, setting);
    }
  }

  /** Every action lands in exactly one of allowed and blocked: the blocked ones are those
      that may not proceed, the allowed ones the others, both in their original order and
      unchanged but for the judgement flag of a granted side effect. */
  lemma {:induction false} ActionsArePartitioned(actions: seq<Action>, setting: Setting)
    ensures var b := PlaceAll(actions, setting);
            && b.blocked == Filter(actions, (a: Action) => !MayProceed(a, setting))
            && b.allowed == AdmittedAll(Filter(actions, (a: Action) => MayProceed(a, setting)))
            && b.tier3 == Filter(actions, (a: Action) => a.riskTier >= 3)
            && |b.allowed| + |b.blocked| == |actions|
  {
    if actions != [] {
      var front, last := actions[..|actions| - 1], actions[|actions| - 1];
      ActionsArePartitioned(front, setting);
      PlaceMeans(PlaceAll(front, setting), last, setting);
      AdmittedAppend(Filter(front, (a: Action) => MayProceed(a, setting)), last);
    }
  }

  /** The n-th action is the last that satisfies `p`. */
  ghost predicate IsLast(actions: seq<Action>, n: int, p: Action -> bool) {
    0 <= n < |actions| && p(actions[n]) && forall m :: n < m < |actions| ==> !p(actions[m])
  }

  lemma LastAppend(front: seq<Action>, last: Action, p: Action -> bool)
    ensures p(last) ==> IsLast(front + [last], |front|, p)
    ensures !p(last) ==> forall n :: IsLast(front, n, p) ==> IsLast(front + [last], n, p)
  {
  }

  /** The request is for the last action that lacks only a grant; there is none without such. */
  ghost predicate RequestIs(actions: seq<Action>, setting: Setting, request: Option<Request>) {
    match request
    case None => forall a :: a in actions ==> !LacksGrant(a, setting)
    case Some(r) =>
      exists n :: IsLast(actions, n, (a: Action) => LacksGrant(a, setting)) && RequestsFor(r, actions[n])
  }

  lemma RequestAppend(front: seq<Action>, last: Action, setting: Setting,
                      before: Option<Request>, after: Option<Request>)
    requires RequestIs(front, setting, before)
    requires if LacksGrant(last, setting) then after.Some? && RequestsFor(after.value, last) else after == before
    ensures RequestIs(front + [last], setting, after)
  {
    var p := (a: Action) => LacksGrant(a, setting);
    var all := front + [last];
    LastAppend(front, last, p);
    if p(last) {
      assert IsLast(all, |front|, p) && all[|front|] == last;
    } else if after.Some? {
      var n :| IsLast(front, n, p) && RequestsFor(after.value, front[n]);
      assert IsLast(all, n, p) && all[n] == front[n];
    }
  }

  lemma {:induction false} RequestMeans(actions: seq<Action>, setting: Setting)
    ensures RequestIs(actions, setting, PlaceAll(actions, setting).request)
  {
    if actions != [] {
      var front, last := actions[..|actions| - 1], actions[|actions| - 1];
      RequestMeans(front, setting);
      PlaceMeans(PlaceAll(front, setting), last, setting);
      assert actions == front + [last];
      RequestAppend(front, last, setting, PlaceAll(front, setting).request, PlaceAll(actions, setting).request);
    }
  }

  /** The grant used is that of the last side effect that may proceed. */
  ghost predicate UsedIs(actions: seq<Action>, setting: Setting, used: Option<Social.Grant>) {
    match used
    case None => forall a :: a in actions && a.sideEffect ==> !MayProceed(a, setting)
    case Some(g) =>
      exists n, k ::
        && IsLast(actions, n, (a: Action) => a.sideEffect && MayProceed(a, setting))
        && IsFirstGrant(k, actions[n].target, actions[n].scope.value, setting) && setting.grants[k] == g
  }

  lemma UsedAppend(front: seq<Action>, last: Action, setting: Setting,
                   before: Option<Social.Grant>, after: Option<Social.Grant>)
    requires UsedIs(front, setting, before)
    requires if last.sideEffect && MayProceed(last, setting)
             then exists n :: IsFirstGrant(n, last.target, last.scope.value, setting)
                              && after == Some(setting.grants[n])
             else after == before
    ensures UsedIs(front + [last], setting, after)
  {
    var p := (a: Action) => a.sideEffect && MayProceed(a, setting);
    var all := front + [last];
    LastAppend(front, last, p);
    if p(last) {
      var k :| IsFirstGrant(k, last.target, last.scope.value, setting) && after == Some(setting.grants[k]);
      assert IsLast(all, |front|, p) && all[|front|] == last;
    } else if after.Some? {
      var n, k :| && IsLast(front, n, p) && IsFirstGrant(k, front[n].target, front[n].scope.value, setting)
                  && setting.grants[k] == after.value;
      assert IsLast(all, n, p) && all[n] == front[n];
    }
  }

  lemma {:induction false} UsedMeans(actions: seq<Action>, setting: Setting)
    ensures UsedIs(actions, setting, PlaceAll(actions, setting).usedGrant)
  {
    if actions != [] {
      var front, last := actions[..|actions| - 1], actions[|actions| - 1];
      UsedMeans(front, setting);
      var before := PlaceAll(front, setting);
      assert PlaceAll(actions, setting) == Place(before, last, setting);
      PlaceMeans(before, last, setting);
      UsedAppend(front, last, setting, before.usedGrant, Place(before, last, setting).usedGrant);
      assert actions == front + [last];
    }
  }

  lemma NonEmptyFilter(actions: seq<Action>, p: Action -> bool)
    ensures Filter(actions, p) != [] <==> exists a :: a in actions && p(a)
  {
    FilterIn(actions, p);
    if Filter(actions, p) != [] {
      assert Filter(actions, p)[0] in Filter(actions, p);
    }
  }

  lemma RequestIffLacking(actions: seq<Action>, setting: Setting, request: Option<Request>)
    requires RequestIs(actions, setting, request)
    ensures request.Some? <==> exists a :: a in actions && LacksGrant(a, setting)
  {
    if request.Some? {
      var n :| IsLast(actions, n, (a: Action) => LacksGrant(a, setting)) && RequestsFor(request.value, actions[n]);
      assert actions[n] in actions;
    }
  }

  /** Which verdict falls, in terms of the candidate actions alone. */
  lemma VerdictMeans(actions: seq<Action>, setting: Setting)
    ensures var d := DecideSpec(actions, setting);
            var blocked := exists a :: a in actions && !MayProceed(a, setting);
            var tier3 := exists a :: a in actions && a.riskTier >= 3;
            var lacking := exists a :: a in actions && LacksGrant(a, setting);
            && (d.verdict == BLOCKED <==> setting.emergencyStop && blocked)
            && (d.verdict == ASK_NIKITA <==> lacking || (tier3 && !(setting.emergencyStop && blocked)))
            && (d.verdict == APPROVAL_REQUIRED <==> !setting.emergencyStop && blocked && !tier3 && !lacking)
            && (d.verdict == AUTO <==> !blocked && !tier3)
            && (d.request.Some? <==> lacking)
  {
    ActionsArePartitioned(actions, setting);
    RequestMeans(actions, setting);
    RequestIffLacking(actions, setting, PlaceAll(actions, setting).request);
    NonEmptyFilter(actions, (a: Action) => !MayProceed(a, setting));
    NonEmptyFilter(actions, (a: Action) => a.riskTier >= 3);
  }

  /** What every decision carries, on the candidate actions alone: the allowed ones are those that
      may proceed, the blocked ones those that may not, and the request, if the verdict comes
      from a missing grant, is for the last action that lacks only that. */
  lemma DecisionCarries(actions: seq<Action>, setting: Setting)
    ensures var d := DecideSpec(actions, setting);
            && d.allowed == AdmittedAll(Filter(actions, (a: Action) => MayProceed(a, setting)))
            && d.blocked == Filter(actions, (a: Action) => !MayProceed(a, setting))
            && RequestIs(actions, setting, d.request)
  {
    ActionsArePartitioned(actions, setting);
    RequestMeans(actions, setting);
    RequestIffLacking(actions, setting, PlaceAll(actions, setting).request);
    if setting.emergencyStop {
      assert forall a :: !LacksGrant(a, setting);
    }
  }

  /** The first target that is not empty. */
  ghost predicate IsFirstTarget(actions: seq<Action>, target: Option<nat>) {
    match target
    case None => forall n :: 0 <= n < |actions| ==> actions[n].target.None?
    case Some(_) =>
      exists n ::
        0 <= n < |actions| && actions[n].target == target && forall m :: 0 <= m < n ==> actions[m].target.None?
  }

  lemma {:induction false} FirstTargetIs(actions: seq<Action>)
    ensures IsFirstTarget(actions, FirstTarget(actions))
  {
    if actions != [] && actions[0].target.None? {
      var rest := actions[1..];
      FirstTargetIs(rest);
      if FirstTarget(rest).Some? {
        var n :| 0 <= n < |rest| && rest[n].target == FirstTarget(rest)
                 && forall m :: 0 <= m < n ==> rest[m].target.None?;
        assert actions[n + 1] == rest[n] && forall m :: 0 <= m < n + 1 ==> actions[m].target.None?;
      } else {
        forall n | 0 <= n < |actions|
          ensures actions[n].target.None?
        {
          assert n > 0 ==> actions[n] == rest[n - 1];
        }
      }
    }
  }

  /** What the audit event names: the requested target, or else the first one of the actions the
      verdict is about, and under AUTO only the grant of the last side effect. */
  lemma AuditMeans(actions: seq<Action>, setting: Setting)
    ensures var d := DecideSpec(actions, setting);
            match d.verdict
            case AUTO =>
              && d.auditTarget == None
              && exists used :: UsedIs(actions, setting, used)
                                && d.auditGrant == (if used.Some? then Some(used.value.id) else None)
            case ASK_NIKITA =>
              && d.auditGrant == None
              && (if d.request.Some? then d.auditTarget == d.request.value.target
                  else IsFirstTarget(Filter(actions, (a: Action) => a.riskTier >= 3), d.auditTarget))
            case _ =>
              d.auditGrant == None
              && IsFirstTarget(Filter(actions, (a: Action) => !MayProceed(a, setting)), d.auditTarget)
  {
    ActionsArePartitioned(actions, setting);
    UsedMeans(actions, setting);
    FirstTargetIs(PlaceAll(actions, setting).blocked);
    FirstTargetIs(PlaceAll(actions, setting).tier3);
  }
}
