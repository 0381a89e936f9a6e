/** File-backed guards of autonomous runs (src/bot/maintenance_guard.py). A file is written
    through a temporary file and a rename, so a reader sees a whole payload or the old one. */
module Maintenance {
  import opened Common

  type Time = int
  type Token = nat

  /** A state file with one timestamp: missing, not readable as one, or readable. */
  datatype File = Absent | Unreadable | At(time: Time)

  /** A marker's started_at, with the file's mtime for a payload that has none. */
  datatype Marker = Marker(startedAt: Option<Time>, mtime: Time)

  function Started(m: Marker): Time { if m.startedAt.Some? then m.startedAt.value else m.mtime }

  datatype Decision = Decision(shouldRun: bool, reason: string)

  ghost predicate AnyActive(markers: map<Option<Token>, Marker>, ttl: Time, now: Time) {
    exists t :: t in markers && now - Started(markers[t]) <= ttl
  }

  class MorningMaintenanceGuard {
    const ttl: Time
    var markers: map<Option<Token>, Marker>  // the marker file of each token; None is the shared one

    constructor (ttlSeconds: Time)
      ensures ttl == Max(1, ttlSeconds) && markers == map[]
    {
      ttl, markers := Max(1, ttlSeconds), map[];
    }

    /** `written` is what _write_json returns. */
    method MarkActive(token: Option<Token>, now: Time, written: bool) returns (ok: bool)
      modifies this
      ensures ok == written
      ensures markers == if written then old(markers)[token := Marker(Some(now), now)] else old(markers)
    {
      if written {
        markers := markers[token := Marker(Some(now), now)];
      }
      ok := written;
    }

    method Release(token: Option<Token>)
      modifies this
      ensures markers == old(markers) - {token}
    {
      markers := markers - {token};
    }

    method IsActive(now: Time) returns (active: bool)
      ensures active <==> AnyActive(markers, ttl, now)
    {
      var paths := markers.Keys;
      active := false;
      while paths != {} && !active
        invariant paths <= markers.Keys
        invariant active ==> AnyActive(markers, ttl, now)
        invariant !active ==> forall t :: t in markers && t !in paths ==> now - Started(markers[t]) > ttl
        decreases |paths| + if active then 0 else 1
      {
        var t :| t in paths;
        if now - Started(markers[t]) <= ttl {
          active := true;
        }
        paths := paths - {t};
      }
    }
  }

  class UserActivityGuard {
    const idle: Time
    var file: File

    constructor (idleSeconds: Time)
      ensures idle == Max(0, idleSeconds) && file == Absent
    {
      idle, file := Max(0, idleSeconds), Absent;
    }

    method RecordActivity(now: Time, written: bool) returns (ok: bool)
      modifies this
      ensures ok == written && file == if written then At(now) else old(file)
    {
      if written {
        file := At(now);
      }
      ok := written;
    }

    /** Open exactly when the last activity is known and an idle time ago. */
    method ShouldAllow(now: Time) returns (d: Decision)
      ensures d.shouldRun <==> file.At? && now - file.time >= idle
      ensures d.reason == "user_activity_unknown" <==> !file.At?
      ensures d == AllowAfterActivity(file, idle, now)
    {
      if !file.At? {
        return Decision(false, "user_activity_unknown");
      }
      var nextAllowedAt := file.time + idle;
      if now < nextAllowedAt {
        return Decision(false, "user_recently_active");
      }
      d := Decision(true, "user_idle");
    }
  }

  /** UserActivityGuard.should_allow_autonomous_run: closed while the activity is unknown. */
  function AllowAfterActivity(file: File, idle: Time, now: Time): Decision {
    if !file.At? then Decision(false, "user_activity_unknown")
    else if now < file.time + idle then Decision(false, "user_recently_active")
    else Decision(true, "user_idle")
  }

  class AutonomousSelfCodingRuntimeGuard {
    const throttle: Time
    const morning: MorningMaintenanceGuard?
    const activity: UserActivityGuard?
    var file: File

    constructor (throttleSeconds: Time, morning: MorningMaintenanceGuard?, activity: UserActivityGuard?)
      ensures throttle == Max(0, throttleSeconds) && this.morning == morning && this.activity == activity
          && file == Absent
    {
      throttle, this.morning, this.activity, file := Max(0, throttleSeconds), morning, activity, Absent;
    }

    ghost function View(): Guard
      reads this, morning, activity
    {
      Guard(if morning == null then None else Some(morning.ttl),
            if morning == null then map[] else morning.markers,
            if activity == null then None else Some(activity.idle),
            if activity == null then Absent else activity.file,
            throttle, file)
    }

    method ShouldRun(now: Time) returns (d: Decision)
      ensures d == ShouldRunSpec(View(), now)
    {
      if morning != null {
        var active := morning.IsActive(now);
        if active {
          return Decision(false, "morning_maintenance_active");
        }
      }
      if activity != null {
        var allowed := activity.ShouldAllow(now);
        if !allowed.shouldRun {
          return allowed;
        }
      }
      if file.Unreadable? {
        return Decision(false, "persistent_state_unreadable");
      }
      if file.Absent? || throttle <= 0 {
        return Decision(true, "allowed");
      }
      d := if now < file.time + throttle then Decision(false, "restart_throttle_active") else Decision(true, "allowed");
    }

    method RecordRun(now: Time, written: bool) returns (ok: bool)
      modifies this
      ensures ok == written && file == if written then At(now) else old(file)
    {
      if written {
        file := At(now);
      }
      ok := written;
    }
  }

  /** The three guards' files and settings; a guard that is not configured has no setting. */
  datatype Guard = Guard(
    ttl: Option<Time>, markers: map<Option<Token>, Marker>,
    idle: Option<Time>, activity: File,
    throttle: Time, lastRun: File)

  /** AutonomousSelfCodingRuntimeGuard.should_run. */
  ghost function ShouldRunSpec(g: Guard, now: Time): Decision {
    if g.ttl.Some? && AnyActive(g.markers, g.ttl.value, now) then Decision(false, "morning_maintenance_active")
    else if g.idle.Some? && !AllowAfterActivity(g.activity, g.idle.value, now).shouldRun
    then AllowAfterActivity(g.activity, g.idle.value, now)
    else if g.lastRun.Unreadable? then Decision(false, "persistent_state_unreadable")
    else if g.lastRun.Absent? || g.throttle <= 0 then Decision(true, "allowed")
    else if now < g.lastRun.time + g.throttle then Decision(false, "restart_throttle_active")
    else Decision(true, "allowed")
  }

  /** When a run is admitted, on files and clock: every marker is older than the time to live, by
      its payload or else by its file; the user's last activity is known and an idle time ago;
      and the last run is unknown to a missing file, or a throttle ago. */
  lemma AdmissionMeans(g: Guard, now: Time)
    ensures var d := ShouldRunSpec(g, now);
            var maintained := g.ttl.Some? && exists t :: t in g.markers && MarkerAge(g.markers[t], now) <= g.ttl.value;
            var unknown := g.idle.Some? && (g.activity == Absent || g.activity == Unreadable);
            var busy := g.idle.Some? && g.activity.At? && now - g.activity.time < g.idle.value;
            var recent := g.lastRun.At? && g.throttle > 0 && now - g.lastRun.time < g.throttle;
            && (d.shouldRun <==> !maintained && !unknown && !busy && g.lastRun != Unreadable && !recent)
            && (d.reason == "morning_maintenance_active" <==> maintained)
            && (d.reason == "user_activity_unknown" <==> !maintained && unknown)
            && (d.reason == "user_recently_active" <==> !maintained && busy)
            && (d.reason == "persistent_state_unreadable" <==>
                  !maintained && !unknown && !busy && g.lastRun == Unreadable)
            && (d.reason == "restart_throttle_active" <==> !maintained && !unknown && !busy && recent)
            && (d.reason == "allowed" <==> d.shouldRun)
  {
    if g.ttl.Some? {
      assert forall t :: t in g.markers ==> now - Started(g.markers[t]) == MarkerAge(g.markers[t], now);
    }
  }

  /** How long ago the marker was set, by its payload, or by its file when that has no time. */
  function MarkerAge(m: Marker, now: Time): int {
    match m.startedAt
    case Some(started) => now - started
    case None => now - m.mtime
  }

  /* ---- runs over time ---- */

  /** `admitted` are the times of the positive checks whose cycle was not skipped; `open` says
      that the last of them has not recorded its run yet; `recorded` and `active` are the last
      recorded run and user activity. */
  datatype Sys = Sys(
    guard: Guard, clock: Time, admitted: seq<Time>, open: bool, recorded: Option<Time>, active: Option<Time>)

  datatype Step =
    | MarkActive(token: Option<Token>, now: Time)
    | Release(token: Option<Token>)
    | Activity(now: Time)
    | Check(now: Time)
    | RecordRun(now: Time, written: bool)
    | DamageActivity                  // the file becomes unreadable
    | DamageState

  /** The positive checks before the open one. When the first record of a cycle cannot be
      written, the caller skips the cycle; a later record that fails changes nothing. */
  function Closed(s: Sys): seq<Time> {
    if s.open && s.admitted != [] then s.admitted[..|s.admitted| - 1] else s.admitted
  }

  ghost function Next(s: Sys, step: Step): Sys {
    match step
    case MarkActive(token, now) =>
      s.(guard := s.guard.(markers := s.guard.markers[token := Marker(Some(now), now)]), clock := now)
    case Release(token) => s.(guard := s.guard.(markers := s.guard.markers - {token}))
    case Activity(now) => s.(guard := s.guard.(activity := At(now)), clock := now, active := Some(now))
    case Check(now) =>
      if ShouldRunSpec(s.guard, now).shouldRun then s.(clock := now, admitted := s.admitted + [now], open := true)
      else s.(clock := now)
    case RecordRun(now, written) =>
      if written then s.(guard := s.guard.(lastRun := At(now)), clock := now, open := false, recorded := Some(now))
      else s.(clock := now, admitted := Closed(s), open := false)
    case DamageActivity => s.(guard := s.guard.(activity := Unreadable))
    case DamageState => s.(guard := s.guard.(lastRun := Unreadable))
  }

  function Init(ttl: Option<Time>, idle: Option<Time>, throttle: Time, start: Time): Sys {
    Sys(Guard(ttl, map[], idle, Absent, throttle, Absent), start, [], false, None, None)
  }

  ghost function Run(init: Sys, steps: seq<Step>): Sys {
    if steps == [] then init else Next(Run(init, steps[..|steps| - 1]), steps[|steps| - 1])
  }

  /** The clock never runs backwards, and after a positive check the caller records its run, or
      fails to, before the next check. It may record the same run any number of times. */
  ghost predicate Disciplined(s: Sys, step: Step) {
    && (step.MarkActive? || step.Activity? || step.Check? || step.RecordRun? ==> s.clock <= step.now)
    && (step.Check? ==> !s.open)
  }

  ghost predicate DisciplinedRun(init: Sys, steps: seq<Step>) {
    forall n :: 0 <= n < |steps| ==> Disciplined(Run(init, steps[..n]), steps[n])
  }

  /** Every two positive checks are at least a throttle apart for each run between them. */
  ghost predicate Spaced(admitted: seq<Time>, throttle: Time) {
    forall i, j :: 0 <= i < j < |admitted| ==> admitted[j] - admitted[i] >= (j - i) * throttle
  }

  /** Files hold the last recorded times, unless they were damaged since. */
  ghost predicate Inv(s: Sys) {
    && s.guard.throttle >= 0
    && (s.guard.lastRun.Unreadable? || s.guard.lastRun == (if s.recorded.Some? then At(s.recorded.value) else Absent))
    && (s.guard.activity.Unreadable? || s.guard.activity == (if s.active.Some? then At(s.active.value) else Absent))
    && (s.open ==> s.admitted != [] && s.admitted[|s.admitted| - 1] <= s.clock)
    && (Closed(s) != [] ==> s.recorded.Some? && Closed(s)[|Closed(s)| - 1] <= s.recorded.value)
    && (s.recorded.Some? ==> s.recorded.value <= s.clock)
    && Spaced(s.admitted, s.guard.throttle)
  }

  /** What a positive check means for what was recorded and is held at that moment. */
  lemma AdmissionIsSafe(s: Sys, now: Time)
    requires Inv(s) && ShouldRunSpec(s.guard, now).shouldRun
    ensures s.recorded.Some? ==> now >= s.recorded.value + s.guard.throttle || s.guard.throttle == 0
    ensures s.guard.idle.Some? ==> s.active.Some? && now >= s.active.value + s.guard.idle.value
    ensures s.guard.ttl.Some? ==> forall t :: t in s.guard.markers ==>
            now - Started(s.guard.markers[t]) > s.guard.ttl.value
  {
  }

  lemma SpacedAppend(admitted: seq<Time>, now: Time, throttle: Time)
    requires Spaced(admitted, throttle) && throttle >= 0
    requires admitted != [] ==> now >= admitted[|admitted| - 1] + throttle
    ensures Spaced(admitted + [now], throttle)
  {
    var all, n := admitted + [now], |admitted|;
    forall i | 0 <= i < n
      ensures all[n] - all[i] >= (n - i) * throttle
    {
      assert (n - i) * throttle == (n - 1 - i) * throttle + throttle;
      if i < n - 1 {
        assert admitted[n - 1] - admitted[i] >= (n - 1 - i) * throttle;
      }
    }
  }

  lemma AdmittedKeeps(s: Sys, now: Time)
    requires Inv(s) && !s.open && s.clock <= now
    requires s.recorded.Some? ==> now >= s.recorded.value + s.guard.throttle || s.guard.throttle == 0
    ensures Inv(s.(clock := now, admitted := s.admitted + [now], open := true))
  {
    SpacedAppend(s.admitted, now, s.guard.throttle);
    assert (s.admitted + [now])[..|s.admitted|] == s.admitted;
  }

  lemma CheckKeeps(s: Sys, now: Time)
    requires Inv(s) && Disciplined(s, Check(now))
    ensures Inv(Next(s, Check(now))) && Next(s, Check(now)).guard.throttle == s.guard.throttle
  {
    if ShouldRunSpec(s.guard, now).shouldRun {
      AdmissionIsSafe(s, now);
      AdmittedKeeps(s, now);
    } else {
      assert Next(s, Check(now)) == s.(clock := now);
    }
  }

  lemma RecordKeeps(s: Sys, now: Time, written: bool)
    requires Inv(s) && s.clock <= now
    ensures var s' := Next(s, RecordRun(now, written));
            Inv(s') && s'.guard.throttle == s.guard.throttle
  {
    var closed := Closed(s);
    assert Spaced(closed, s.guard.throttle);
    assert Next(s, RecordRun(now, written))
        == if written
           then s.(guard := s.guard.(lastRun := At(now)), clock := now, open := false, recorded := Some(now))
           else s.(clock := now, admitted := closed, open := false);
  }

  lemma StepKeeps(s: Sys, step: Step)
    requires Inv(s) && Disciplined(s, step)
    ensures Inv(Next(s, step)) && Next(s, step).guard.throttle == s.guard.throttle
  {
    match step
    case Check(now) => CheckKeeps(s, now);
    case RecordRun(now, written) => RecordKeeps(s, now, written);
    case _ =>
  }

  lemma FrontIsDisciplined(init: Sys, steps: seq<Step>)
    requires steps != [] && DisciplinedRun(init, steps)
    ensures var front := steps[..|steps| - 1];
            DisciplinedRun(init, front) && Disciplined(Run(init, front), steps[|steps| - 1])
  {
    var front := steps[..|steps| - 1];
    forall n | 0 <= n < |front|
      ensures Disciplined(Run(init, front[..n]), front[n])
    {
      assert front[..n] == steps[..n];
    }
  }

  lemma {:induction false} RunKeeps(init: Sys, steps: seq<Step>)
    requires Inv(init) && DisciplinedRun(init, steps)
    ensures Inv(Run(init, steps)) && Run(init, steps).guard.throttle == init.guard.throttle
  {
    if steps != [] {
      FrontIsDisciplined(init, steps);
      RunKeeps(init, steps[..|steps| - 1]);
      StepKeeps(Run(init, steps[..|steps| - 1]), steps[|steps| - 1]);
    }
  }

  /** In every disciplined run, the positive checks whose cycle was not skipped are spaced by the
      throttle: between the i-th and the j-th of them at least (j - i) throttles pass. */
  lemma AutonomousRunsAreSpaced(ttl: Option<Time>, idle: Option<Time>, throttle: Time, start: Time, steps: seq<Step>)
    requires throttle >= 0 && DisciplinedRun(Init(ttl, idle, throttle, start), steps)
    ensures Spaced(Run(Init(ttl, idle, throttle, start), steps).admitted, throttle)
  {
    RunKeeps(Init(ttl, idle, throttle, start), steps);
  }

  /** After any disciplined run, a check that admits comes a throttle after the last recorded
      run, an idle time after the last recorded activity, and never while an unreleased marker
      is within its time to live. */
  lemma ChecksAdmitSafely(ttl: Option<Time>, idle: Option<Time>, throttle: Time, start: Time, steps: seq<Step>,
                          now: Time)
    requires throttle >= 0 && DisciplinedRun(Init(ttl, idle, throttle, start), steps)
    ensures var s := Run(Init(ttl, idle, throttle, start), steps);
            ShouldRunSpec(s.guard, now).shouldRun ==>
              && (s.recorded.Some? && throttle > 0 ==> now >= s.recorded.value + throttle)
              && (s.guard.idle.Some? ==> s.active.Some? && now >= s.active.value + s.guard.idle.value)
              && (s.guard.ttl.Some?
                  ==> forall t :: t in s.guard.markers ==> now - Started(s.guard.markers[t]) > s.guard.ttl.value)
  {
    RunKeeps(Init(ttl, idle, throttle, start), steps);
    var s := Run(Init(ttl, idle, throttle, start), steps);
    if ShouldRunSpec(s.guard, now).shouldRun {
      AdmissionIsSafe(s, now);
    }
  }

  /** Releasing one token leaves every other holder's marker in force. */
  lemma ReleaseKeepsOthers(markers: map<Option<Token>, Marker>, mine: Option<Token>, other: Option<Token>,
                           ttl: Time, now: Time)
    requires other != mine && other in markers && now - Started(markers[other]) <= ttl
    ensures AnyActive(markers - {mine}, ttl, now)
  {
    assert other in markers - {mine} && (markers - {mine})[other] == markers[other];
  }
}
