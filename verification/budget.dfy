/** Budget preflight, usage ledger and recorder (src/agent_runtime/budget_policy.py), with
    admitted jobs that are still running. Amounts are exact (`real` for Decimal). */
module Budget {
  import opened Common

  type Time = int

  datatype Kind =
    | CHAT | READONLY_RESEARCH | SUMMARIZATION | MEMORY_STAGING | SOCIAL_JUDGEMENT | SPEC_WRITING | CODING
    | TIER3_REVIEW

  datatype Bucket = AutonomousLoop | SelfCoding

  function BucketOf(kind: Kind): Bucket { if kind.CODING? then SelfCoding else AutonomousLoop }

  datatype Settings = Settings(loopDaily: real, loopWeekly: real, codingDaily: real, codingWeekly: real)

  function DailyCap(s: Settings, b: Bucket): real { if b.SelfCoding? then s.codingDaily else s.loopDaily }

  function WeeklyCap(s: Settings, b: Bucket): real { if b.SelfCoding? then s.codingWeekly else s.loopWeekly }

  /** The day and the ISO week of a moment; moments of one day share their week. */
  datatype Calendar = Calendar(day: Time -> int, week: Time -> int) {
    ghost predicate Sound() { forall t, u :: day(t) == day(u) ==> week(t) == week(u) }
  }

  const MICROS_PER_DAY := 86_400_000_000

  /** UTC days since 1970-01-01, a Thursday, and weeks that start on Monday. */
  function UtcCalendar(): Calendar {
    Calendar((t: Time) => t / MICROS_PER_DAY, (t: Time) => (t / MICROS_PER_DAY + 3) / 7)
  }

  lemma UtcCalendarIsSound()
    ensures UtcCalendar().Sound()
  {
  }

  /** A day is 24 hours from midnight, and a week the seven days from a Monday; day 4 is the first
      Monday after the epoch. */
  lemma UtcCalendarMeans(t: Time, u: Time)
    ensures var cal := UtcCalendar();
            && cal.day(t) * 86_400_000_000 <= t < (cal.day(t) + 1) * 86_400_000_000
            && ((cal.day(t) - 4) % 7 == 0
                ==> (cal.week(u) == cal.week(t) <==> cal.day(t) <= cal.day(u) < cal.day(t) + 7))
  {
    var d, e := UtcCalendar().day(t), UtcCalendar().day(u);
    if (d - 4) % 7 == 0 {
      assert (d + 3) % 7 == 0;
      assert (d + 3) / 7 * 7 == d + 3 && (e + 3) / 7 * 7 <= e + 3 < (e + 3) / 7 * 7 + 7;
    }
  }

  /** An amount for a kind of job at a moment: a ledger record, or the estimate of a job
      admitted then. */
  datatype Charge = Charge(kind: Kind, amount: real, at: Time)

  /* ---- totals ---- */

  function Total(charges: seq<Charge>, p: Charge -> bool): real {
    if charges == [] then 0.0
    else Total(charges[..|charges| - 1], p) + if p(charges[|charges| - 1]) then charges[|charges| - 1].amount else 0.0
  }

  lemma TotalAppend(charges: seq<Charge>, c: Charge, p: Charge -> bool)
    ensures Total(charges + [c], p) == Total(charges, p) + if p(c) then c.amount else 0.0
  {
    assert (charges + [c])[..|charges|] == charges;
  }

  function Without(charges: seq<Charge>, i: nat): seq<Charge>
    requires i < |charges|
  {
    charges[..i] + charges[i + 1..]
  }

  /** Removing one element takes away exactly its share. */
  lemma {:induction false} TotalRemove(charges: seq<Charge>, i: nat, p: Charge -> bool)
    requires i < |charges|
    ensures Total(Without(charges, i), p) == Total(charges, p) - if p(charges[i]) then charges[i].amount else 0.0
  {
    var front, last := charges[..|charges| - 1], charges[|charges| - 1];
    if i == |charges| - 1 {
      assert Without(charges, i) == front;
    } else {
      assert Without(charges, i) == Without(front, i) + [last];
      TotalRemove(front, i, p);
      TotalAppend(Without(front, i), last, p);
    }
  }

  /** The charges of a bucket in one period, a day or a week. */
  function In(period: Time -> int, b: Bucket, n: int): Charge -> bool {
    (c: Charge) => BucketOf(c.kind) == b && period(c.at) == n
  }

  /* ---- ledger, policy and gate ---- */

  /** A line of the ledger file; corrupt ones are skipped. */
  datatype Line = Blank | Corrupt | Entry(charge: Charge)

  function Records(lines: seq<Line>): seq<Charge> {
    if lines == [] then []
    else
      var last := lines[|lines| - 1];
      Records(lines[..|lines| - 1]) + if last.Entry? then [last.charge] else []
  }

  /** What is read from a file is what its lines hold, in order; blank and corrupt ones hold nothing. */
  lemma {:induction false} RecordsConcat(a: seq<Line>, b: seq<Line>)
    ensures Records(a + b) == Records(a) + Records(b)
    ensures Records([Blank]) == [] && Records([Corrupt]) == [] && forall c :: Records([Entry(c)]) == [c]
  {
    if b == [] {
      assert a + b == a;
    } else {
      FrontOfConcat(a, b);
      RecordsConcat(a, b[..|b| - 1]);
    }
  }

  datatype Usage = Usage(today: real, week: real, estimate: real)

  function Snapshot(cal: Calendar, records: seq<Charge>, kind: Kind, estimate: real, now: Time): Usage {
    Usage(Total(records, In(cal.day, BucketOf(kind), cal.day(now))),
          Total(records, In(cal.week, BucketOf(kind), cal.week(now))), estimate)
  }

  datatype Decision = ALLOW | BLOCK(reason: string) | ASK_NIKITA

  /** AgentBudgetPolicy.evaluate on the routes of from_settings. */
  function Decide(s: Settings, kind: Kind, u: Usage): Decision {
    if kind.TIER3_REVIEW? then ASK_NIKITA
    else if u.today + u.estimate > DailyCap(s, BucketOf(kind)) then BLOCK("daily_budget_exceeded")
    else if u.week + u.estimate > WeeklyCap(s, BucketOf(kind)) then BLOCK("weekly_budget_exceeded")
    else ALLOW
  }

  lemma {:induction false} TotalSame(charges: seq<Charge>, p: Charge -> bool, q: Charge -> bool)
    requires forall c :: p(c) <==> q(c)
    ensures Total(charges, p) == Total(charges, q)
  {
    if charges != [] {
      TotalSame(charges[..|charges| - 1], p, q);
    }
  }

  lemma SameBucket(period: Time -> int, records: seq<Charge>, kind: Kind, now: Time)
    ensures Total(records, In(period, BucketOf(kind), period(now)))
         == Total(records, (c: Charge) => (c.kind == CODING <==> kind == CODING) && period(c.at) == period(now))
  {
    var p := In(period, BucketOf(kind), period(now));
    var q := (c: Charge) => (c.kind == CODING <==> kind == CODING) && period(c.at) == period(now);
    forall c
      ensures p(c) <==> q(c)
    {
      assert BucketOf(c.kind) == BucketOf(kind) <==> (c.kind == CODING <==> kind == CODING);
    }
    TotalSame(records, p, q);
  }

  /** What the ledger holds of a kind's bucket for a day: coding jobs are counted by themselves,
      all other kinds together. */
  function SpentOn(cal: Calendar, records: seq<Charge>, kind: Kind, now: Time): real {
    var day := cal.day;
    Total(records, (c: Charge) => (c.kind == CODING <==> kind == CODING) && day(c.at) == day(now))
  }

  function SpentInWeek(cal: Calendar, records: seq<Charge>, kind: Kind, now: Time): real {
    var week := cal.week;
    Total(records, (c: Charge) => (c.kind == CODING <==> kind == CODING) && week(c.at) == week(now))
  }

  /** The gate's answer, on settings and ledger: a review is never automatic, and every other kind
      is allowed exactly when its day and its week stay within the two limits of its bucket. */
  lemma DecisionMeans(s: Settings, cal: Calendar, records: seq<Charge>, kind: Kind, estimate: real, now: Time)
    ensures var d := Decide(s, kind, Snapshot(cal, records, kind, estimate, now));
            var dayFits := SpentOn(cal, records, kind, now) + estimate
                           <= (if kind == CODING then s.codingDaily else s.loopDaily);
            var weekFits := SpentInWeek(cal, records, kind, now) + estimate
                            <= (if kind == CODING then s.codingWeekly else s.loopWeekly);
            && (d == ASK_NIKITA <==> kind == TIER3_REVIEW)
            && (d == ALLOW <==> kind != TIER3_REVIEW && dayFits && weekFits)
            && (d == BLOCK("daily_budget_exceeded") <==> kind != TIER3_REVIEW && !dayFits)
            && (d == BLOCK("weekly_budget_exceeded") <==> kind != TIER3_REVIEW && dayFits && !weekFits)
  {
    SameBucket(cal.day, records, kind, now);
    SameBucket(cal.week, records, kind, now);
  }

  class FileBudgetUsageLedger {
    var lines: seq<Line>

    constructor ()
      ensures lines == []
    {
      lines := [];
    }

    method Append(charge: Charge)
      modifies this
      ensures lines == old(lines) + [Entry(charge)]
      ensures Records(lines) == old(Records(lines)) + [charge]
    {
      lines := lines + [Entry(charge)];
      assert lines[..|lines| - 1] == old(lines);
    }

    method ListRecords() returns (records: seq<Charge>)
      ensures records == Records(lines)
    {
      records := [];
      var i := 0;
      while i < |lines|
        invariant 0 <= i <= |lines|
        invariant records == Records(lines[..i])
      {
        assert lines[..i + 1][..i] == lines[..i];
        if lines[i].Entry? {
          records := records + [lines[i].charge];
        }
        i := i + 1;
      }
      assert lines[..i] == lines;
    }

    method SnapshotFor(cal: Calendar, kind: Kind, estimate: real, now: Time) returns (u: Usage)
      ensures u == Snapshot(cal, Records(lines), kind, estimate, now)
    {
      var records := ListRecords();
      var bucket := BucketOf(kind);
      var spentToday, spentWeek := 0.0, 0.0;
      var i := 0;
      while i < |records|
        invariant 0 <= i <= |records|
        invariant spentToday == Total(records[..i], In(cal.day, bucket, cal.day(now)))
        invariant spentWeek == Total(records[..i], In(cal.week, bucket, cal.week(now)))
      {
        var r := records[i];
        assert records[..i + 1] == records[..i] + [r];
        TotalAppend(records[..i], r, In(cal.day, bucket, cal.day(now)));
        TotalAppend(records[..i], r, In(cal.week, bucket, cal.week(now)));
        if BucketOf(r.kind) == bucket {
          if cal.day(r.at) == cal.day(now) {
            spentToday := spentToday + r.amount;
          }
          if cal.week(r.at) == cal.week(now) {
            spentWeek := spentWeek + r.amount;
          }
        }
        i := i + 1;
      }
      assert records[..i] == records;
      u := Usage(spentToday, spentWeek, estimate);
    }

    /** BudgetPreflightGate.evaluate. */
    method Evaluate(s: Settings, cal: Calendar, kind: Kind, estimate: real, now: Time) returns (d: Decision)
      ensures d == Decide(s, kind, Snapshot(cal, Records(lines), kind, estimate, now))
    {
      var u := SnapshotFor(cal, kind, estimate, now);
      d := Decide(s, kind, u);
    }
  }

  /* ---- budget metadata of a job ---- */

  datatype KindField = NoKind | UnknownKind | KnownKind(kind: Kind)

  datatype CostField = Missing | Unreadable | Amount(value: real)

  datatype Metadata = Metadata(kind: KindField, estimated: CostField, observed: CostField)

  datatype Preflight = Ungated | Error(reason: string) | Gated(kind: Kind, estimate: real)

  /** _budget_metadata. */
  function ReadForPreflight(m: Metadata): Preflight {
    match m.kind
    case NoKind => Ungated
    case UnknownKind => Error("budget_unknown_job_kind")
    case KnownKind(kind) =>
      match m.estimated
      case Missing => Error("budget_estimated_cost_missing")
      case Unreadable => Error("budget_estimated_cost_invalid")
      case Amount(v) => if v < 0.0 then Error("budget_estimated_cost_invalid") else Gated(kind, v)
  }

  /** What record_completed_job appends for a completed job, if anything. */
  function ReadForRecord(m: Metadata, now: Time): Option<Charge> {
    if !m.kind.KnownKind? then None
    else
      var cost := if m.observed.Missing? then m.estimated else m.observed;
      if cost.Amount? && cost.value >= 0.0 then Some(Charge(m.kind.kind, cost.value, now)) else None
  }

  /** Which jobs the gate judges, on what estimate, and which it refuses unjudged. */
  lemma PreflightMeans(m: Metadata, kind: Kind, v: real)
    ensures ReadForPreflight(m) == Gated(kind, v) <==>
            m.kind == KnownKind(kind) && m.estimated == Amount(v) && v >= 0.0
    ensures ReadForPreflight(m) == Ungated <==> m.kind == NoKind
    ensures ReadForPreflight(m) == Error("budget_unknown_job_kind") <==> m.kind == UnknownKind
    ensures ReadForPreflight(m) == Error("budget_estimated_cost_missing")
            <==> m.kind.KnownKind? && m.estimated == Missing
    ensures ReadForPreflight(m) == Error("budget_estimated_cost_invalid") <==>
            m.kind.KnownKind?
            && (m.estimated == Unreadable || (m.estimated.Amount? && m.estimated.value < 0.0))
  {
  }

  /** What is recorded of a completed job: its observed cost, or without one its estimate. */
  lemma RecordMeans(m: Metadata, now: Time, c: Charge)
    ensures ReadForRecord(m, now) == Some(c) <==>
            && m.kind == KnownKind(c.kind) && c.at == now && c.amount >= 0.0
            && (m.observed == Amount(c.amount) || (m.observed == Missing && m.estimated == Amount(c.amount)))
  {
  }

  /** A job that passed the gate records at most one charge, of its own kind and not negative;
      no more than its estimate exactly when no readable observed cost is above it. */
  lemma GatedJobsRecord(m: Metadata, now: Time)
    requires ReadForPreflight(m).Gated?
    ensures var g, r := ReadForPreflight(m), ReadForRecord(m, now);
            && (r.Some? ==> r.value.kind == g.kind && r.value.amount >= 0.0)
            && ((r.Some? ==> r.value.amount <= g.estimate) <==> !(m.observed.Amount? && m.observed.value > g.estimate))
  {
  }

  /** A coding job admitted for one dollar that was observed to cost two records two. */
  lemma OverrunRecorded(now: Time)
    ensures var m := Metadata(KnownKind(CODING), Amount(1.0), Amount(2.0));
            ReadForPreflight(m) == Gated(CODING, 1.0) && ReadForRecord(m, now) == Some(Charge(CODING, 2.0, now))
  {
  }

  /* ---- admission while other admitted jobs are unfinished ---- */

  /** `running` are the admitted, unfinished jobs with their estimate and admission time. */
  datatype Sys = Sys(ledger: seq<Charge>, running: seq<Charge>)

  datatype Step =
    | Admit(kind: Kind, estimate: real, now: Time)
    | Finish(job: nat, cost: real, now: Time)
    | Drop(job: nat)                  // failed, canceled, or recorded nothing
    | Unreserved(kind: Kind, cost: real, now: Time)  // recorded by a job that is not running

  predicate Admits(s: Settings, cal: Calendar, sys: Sys, step: Step) {
    step.Admit? && Decide(s, step.kind, Snapshot(cal, sys.ledger, step.kind, step.estimate, step.now)).ALLOW?
  }

  function Next(s: Settings, cal: Calendar, sys: Sys, step: Step): Sys {
    match step
    case Admit(kind, estimate, now) =>
      if Admits(s, cal, sys, step) then sys.(running := sys.running + [Charge(kind, estimate, now)]) else sys
    case Finish(i, cost, now) =>
      if i >= |sys.running| then sys
      else Sys(sys.ledger + [Charge(sys.running[i].kind, cost, now)], Without(sys.running, i))
    case Drop(i) =>
      if i >= |sys.running| then sys else sys.(running := Without(sys.running, i))
    case Unreserved(kind, cost, now) => sys.(ledger := sys.ledger + [Charge(kind, cost, now)])
  }

  function Run(s: Settings, cal: Calendar, ledger: seq<Charge>, steps: seq<Step>): Sys {
    if steps == [] then Sys(ledger, [])
    else Next(s, cal, Run(s, cal, ledger, steps[..|steps| - 1]), steps[|steps| - 1])
  }

  /** Estimates and recorded costs are not negative, as the gate and the recorder see to. */
  predicate NonNegative(step: Step) {
    match step
    case Admit(_, estimate, _) => estimate >= 0.0
    case Finish(_, cost, _) => cost >= 0.0
    case Drop(_) => true
    case Unreserved(_, cost, _) => cost >= 0.0
  }

  /** By how much a job's record exceeds what its estimate reserved among the charges `p`: an
      overrun, a cost carried over from another day or week, or one that nothing reserved. */
  function Excess(sys: Sys, step: Step, p: Charge -> bool): real {
    if step.Finish? && step.job < |sys.running| then
      var job := sys.running[step.job];
      var recorded := if p(Charge(job.kind, step.cost, step.now)) then step.cost else 0.0;
      var reserved := if p(job) then job.amount else 0.0;
      if recorded > reserved then recorded - reserved else 0.0
    else if step.Unreserved? && p(Charge(step.kind, step.cost, step.now)) then step.cost
    else 0.0
  }

  /** The excess of the bucket and period since its last admission, or since the beginning. */
  function ExcessSince(s: Settings, cal: Calendar, ledger: seq<Charge>, steps: seq<Step>,
                       period: Time -> int, b: Bucket, n: int): real
  {
    if steps == [] then 0.0
    else
      var front, step := steps[..|steps| - 1], steps[|steps| - 1];
      var before := Run(s, cal, ledger, front);
      if Admits(s, cal, before, step) && BucketOf(step.kind) == b && period(step.now) == n then 0.0
      else ExcessSince(s, cal, ledger, front, period, b, n) + Excess(before, step, In(period, b, n))
  }

  /** The estimates of the other jobs of the bucket and period that were unfinished when the
      last job of it was admitted; None when none was. */
  function OthersAtLastAdmission(s: Settings, cal: Calendar, ledger: seq<Charge>, steps: seq<Step>,
                                 period: Time -> int, b: Bucket, n: int): Option<real>
  {
    if steps == [] then None
    else
      var before, step := Run(s, cal, ledger, steps[..|steps| - 1]), steps[|steps| - 1];
      if Admits(s, cal, before, step) && BucketOf(step.kind) == b && period(step.now) == n
      then Some(Total(before.running, In(period, b, n)))
      else OthersAtLastAdmission(s, cal, ledger, steps[..|steps| - 1], period, b, n)
  }

  /** The running jobs: estimates are not negative, and a period nobody was admitted in has none. */
  ghost predicate RunningOk(running: seq<Charge>, p: Charge -> bool, others: Option<real>) {
    forall c :: c in running ==> c.amount >= 0.0 && (others.None? ==> !p(c))
  }

  ghost predicate PeriodInv(sys: Sys, p: Charge -> bool, cap: real, initial: real, others: Option<real>, excess: real) {
    && RunningOk(sys.running, p, others)
    && var spent, open := Total(sys.ledger, p), Total(sys.running, p);
       if others.None? then spent == initial + excess && open == 0.0 else spent + open <= cap + others.value + excess
  }

  /** `period` is a day or a week, and `cap` the matching limit. */
  ghost predicate CapOf(s: Settings, cal: Calendar, period: Time -> int, b: Bucket, cap: real) {
    (period == cal.day && cap == DailyCap(s, b)) || (period == cal.week && cap == WeeklyCap(s, b))
  }

  function NowOthers(s: Settings, cal: Calendar, sys: Sys, step: Step,
                     period: Time -> int, b: Bucket, n: int, others: Option<real>): Option<real>
  {
    if Admits(s, cal, sys, step) && BucketOf(step.kind) == b && period(step.now) == n
    then Some(Total(sys.running, In(period, b, n))) else others
  }

  function NowExcess(s: Settings, cal: Calendar, sys: Sys, step: Step,
                     period: Time -> int, b: Bucket, n: int, excess: real): real
  {
    if Admits(s, cal, sys, step) && BucketOf(step.kind) == b && period(step.now) == n then 0.0
    else excess + Excess(sys, step, In(period, b, n))
  }

  lemma AdmittedFits(s: Settings, cal: Calendar, sys: Sys, step: Step, period: Time -> int, b: Bucket, n: int,
                     cap: real)
    requires CapOf(s, cal, period, b, cap) && Admits(s, cal, sys, step)
    requires BucketOf(step.kind) == b && period(step.now) == n
    ensures Total(sys.ledger, In(period, b, n)) + step.estimate <= cap
  {
  }

  lemma ChargeKeepsPeriod(sys: Sys, charge: Charge, p: Charge -> bool, cap: real, initial: real,
                          others: Option<real>, excess: real)
    requires PeriodInv(sys, p, cap, initial, others, excess) && charge.amount >= 0.0
    requires p(charge) ==> Total(sys.ledger, p) + charge.amount <= cap
    ensures PeriodInv(sys.(running := sys.running + [charge]), p, cap, initial,
                      if p(charge) then Some(Total(sys.running, p)) else others,
                      if p(charge) then 0.0 else excess)
  {
    TotalAppend(sys.running, charge, p);
  }

  lemma AdmitKeepsPeriod(s: Settings, cal: Calendar, sys: Sys, step: Step, period: Time -> int, b: Bucket, n: int,
                         cap: real, initial: real, others: Option<real>, excess: real)
    requires CapOf(s, cal, period, b, cap) && step.Admit? && step.estimate >= 0.0
    requires PeriodInv(sys, In(period, b, n), cap, initial, others, excess)
    ensures PeriodInv(Next(s, cal, sys, step), In(period, b, n), cap, initial,
                      NowOthers(s, cal, sys, step, period, b, n, others),
                      NowExcess(s, cal, sys, step, period, b, n, excess))
  {
    var charge, p := Charge(step.kind, step.estimate, step.now), In(period, b, n);
    if Admits(s, cal, sys, step) {
      if p(charge) {
        AdmittedFits(s, cal, sys, step, period, b, n, cap);
      }
      ChargeKeepsPeriod(sys, charge, p, cap, initial, others, excess);
      assert NowOthers(s, cal, sys, step, period, b, n, others)
          == if p(charge) then Some(Total(sys.running, p)) else others;
      assert NowExcess(s, cal, sys, step, period, b, n, excess) == if p(charge) then 0.0 else excess;
      assert Next(s, cal, sys, step) == sys.(running := sys.running + [charge]);
    } else {
      assert Next(s, cal, sys, step) == sys;
    }
  }

  lemma RemoveKeepsOk(running: seq<Charge>, i: nat, p: Charge -> bool, others: Option<real>)
    requires RunningOk(running, p, others) && i < |running|
    ensures RunningOk(Without(running, i), p, others)
    ensures running[i] in running && (others.None? ==> !p(running[i])) && running[i].amount >= 0.0
  {
    assert running[i] in running;
    forall c | c in Without(running, i)
      ensures c in running
    {
      if c in running[..i] {
      } else {
        assert c in running[i + 1..];
      }
    }
  }

  lemma FinishKeepsPeriod(s: Settings, cal: Calendar, sys: Sys, step: Step, p: Charge -> bool,
                          cap: real, initial: real, others: Option<real>, excess: real)
    requires step.Finish? && step.cost >= 0.0
    requires PeriodInv(sys, p, cap, initial, others, excess)
    ensures PeriodInv(Next(s, cal, sys, step), p, cap, initial, others, excess + Excess(sys, step, p))
  {
    var i := step.job;
    if i < |sys.running| {
      RemoveKeepsOk(sys.running, i, p, others);
      TotalAppend(sys.ledger, Charge(sys.running[i].kind, step.cost, step.now), p);
      TotalRemove(sys.running, i, p);
    }
  }

  lemma DropKeepsPeriod(s: Settings, cal: Calendar, sys: Sys, step: Step, p: Charge -> bool,
                        cap: real, initial: real, others: Option<real>, excess: real)
    requires step.Drop?
    requires PeriodInv(sys, p, cap, initial, others, excess)
    ensures PeriodInv(Next(s, cal, sys, step), p, cap, initial, others, excess + Excess(sys, step, p))
  {
    if step.job < |sys.running| {
      RemoveKeepsOk(sys.running, step.job, p, others);
      TotalRemove(sys.running, step.job, p);
    }
  }

  lemma StepKeepsPeriod(s: Settings, cal: Calendar, sys: Sys, step: Step, period: Time -> int, b: Bucket, n: int,
                        cap: real, initial: real, others: Option<real>, excess: real)
    requires CapOf(s, cal, period, b, cap) && NonNegative(step)
    requires PeriodInv(sys, In(period, b, n), cap, initial, others, excess)
    ensures PeriodInv(Next(s, cal, sys, step), In(period, b, n), cap, initial,
                      NowOthers(s, cal, sys, step, period, b, n, others),
                      NowExcess(s, cal, sys, step, period, b, n, excess))
  {
    match step
    case Admit(_, _, _) => AdmitKeepsPeriod(s, cal, sys, step, period, b, n, cap, initial, others, excess);
    case Finish(_, _, _) => FinishKeepsPeriod(s, cal, sys, step, In(period, b, n), cap, initial, others, excess);
    case Drop(_) => DropKeepsPeriod(s, cal, sys, step, In(period, b, n), cap, initial, others, excess);
    case Unreserved(kind, cost, now) => TotalAppend(sys.ledger, Charge(kind, cost, now), In(period, b, n));
  }

  lemma LastStep(s: Settings, cal: Calendar, ledger: seq<Charge>, steps: seq<Step>, period: Time -> int,
                 b: Bucket, n: int)
    requires steps != []
    ensures var front, step := steps[..|steps| - 1], steps[|steps| - 1];
            var before := Run(s, cal, ledger, front);
            var others := OthersAtLastAdmission(s, cal, ledger, front, period, b, n);
            var excess := ExcessSince(s, cal, ledger, front, period, b, n);
            && Run(s, cal, ledger, steps) == Next(s, cal, before, step)
            && OthersAtLastAdmission(s, cal, ledger, steps, period, b, n)
                == NowOthers(s, cal, before, step, period, b, n, others)
            && ExcessSince(s, cal, ledger, steps, period, b, n) == NowExcess(s, cal, before, step, period, b, n, excess)
  {
  }

  lemma {:induction false} PeriodBound(s: Settings, cal: Calendar, ledger: seq<Charge>, steps: seq<Step>,
                                       period: Time -> int, b: Bucket, n: int, cap: real)
    requires CapOf(s, cal, period, b, cap) && forall step :: step in steps ==> NonNegative(step)
    ensures PeriodInv(Run(s, cal, ledger, steps), In(period, b, n), cap, Total(ledger, In(period, b, n)),
                      OthersAtLastAdmission(s, cal, ledger, steps, period, b, n),
                      ExcessSince(s, cal, ledger, steps, period, b, n))
  {
    if steps != [] {
      var front, step := steps[..|steps| - 1], steps[|steps| - 1];
      PeriodBound(s, cal, ledger, front, period, b, n, cap);
      LastStep(s, cal, ledger, steps, period, b, n);
      StepKeepsPeriod(s, cal, Run(s, cal, ledger, front), step, period, b, n, cap, Total(ledger, In(period, b, n)),
                      OthersAtLastAdmission(s, cal, ledger, front, period, b, n),
                      ExcessSince(s, cal, ledger, front, period, b, n));
    }
  }

  /** In every run, what a bucket has recorded for a day or a week never exceeds the cap by
      more than the estimates of the other jobs that were running at the last admission and
      the excess since then; a period in which nothing was admitted gains exactly its excess. */
  lemma RecordedSpendIsBounded(s: Settings, cal: Calendar, ledger: seq<Charge>, steps: seq<Step>,
                               period: Time -> int, b: Bucket, n: int, cap: real)
    requires CapOf(s, cal, period, b, cap) && forall step :: step in steps ==> NonNegative(step)
    ensures var spent := Total(Run(s, cal, ledger, steps).ledger, In(period, b, n));
            var others := OthersAtLastAdmission(s, cal, ledger, steps, period, b, n);
            var excess := ExcessSince(s, cal, ledger, steps, period, b, n);
            if others.None? then spent == Total(ledger, In(period, b, n)) + excess
                else spent <= cap + others.value + excess
  {
    PeriodBound(s, cal, ledger, steps, period, b, n, cap);
    TotalNonNegative(Run(s, cal, ledger, steps).running, In(period, b, n));
  }

  /* ---- jobs that keep to their estimates ---- */

  /** A job costs at most its estimate, and is recorded while it runs, on the day it was admitted. */
  ghost predicate Fair(cal: Calendar, sys: Sys, step: Step) {
    && !step.Unreserved?
    && (step.Finish? && step.job < |sys.running| ==>
          step.cost <= sys.running[step.job].amount && cal.day(step.now) == cal.day(sys.running[step.job].at))
  }

  ghost predicate FairRun(s: Settings, cal: Calendar, ledger: seq<Charge>, steps: seq<Step>) {
    forall n :: 0 <= n < |steps| ==> Fair(cal, Run(s, cal, ledger, steps[..n]), steps[n])
  }

  lemma FairHasNoExcess(cal: Calendar, sys: Sys, step: Step, period: Time -> int, b: Bucket, n: int)
    requires cal.Sound() && (period == cal.day || period == cal.week)
    requires Fair(cal, sys, step) && forall c :: c in sys.running ==> c.amount >= 0.0
    ensures Excess(sys, step, In(period, b, n)) == 0.0
  {
    if step.Finish? && step.job < |sys.running| {
      var job := sys.running[step.job];
      assert job in sys.running && period(step.now) == period(job.at);
    }
  }

  lemma FrontIsFair(s: Settings, cal: Calendar, ledger: seq<Charge>, steps: seq<Step>)
    requires FairRun(s, cal, ledger, steps) && steps != []
    ensures FairRun(s, cal, ledger, steps[..|steps| - 1])
    ensures Fair(cal, Run(s, cal, ledger, steps[..|steps| - 1]), steps[|steps| - 1])
  {
    var front := steps[..|steps| - 1];
    forall n | 0 <= n < |front|
      ensures Fair(cal, Run(s, cal, ledger, front[..n]), front[n])
    {
      assert front[..n] == steps[..n];
    }
  }

  /** Jobs that keep to their estimates leave no excess. */
  lemma {:induction false} NoExcess(s: Settings, cal: Calendar, ledger: seq<Charge>, steps: seq<Step>,
                                    period: Time -> int, b: Bucket, n: int, cap: real)
    requires cal.Sound() && CapOf(s, cal, period, b, cap) && FairRun(s, cal, ledger, steps)
    requires forall step :: step in steps ==> NonNegative(step)
    ensures ExcessSince(s, cal, ledger, steps, period, b, n) == 0.0
  {
    if steps != [] {
      var front := steps[..|steps| - 1];
      FrontIsFair(s, cal, ledger, steps);
      NoExcess(s, cal, ledger, front, period, b, n, cap);
      PeriodBound(s, cal, ledger, front, period, b, n, cap);
      FairHasNoExcess(cal, Run(s, cal, ledger, front), steps[|steps| - 1], period, b, n);
    }
  }

  lemma {:induction false} TotalNonNegative(charges: seq<Charge>, p: Charge -> bool)
    requires forall c :: c in charges ==> c.amount >= 0.0
    ensures Total(charges, p) >= 0.0
  {
    if charges != [] {
      TotalNonNegative(charges[..|charges| - 1], p);
    }
  }

  /** With at most one job in flight only the excess can take a bucket over its cap; when jobs
      keep to their estimates the caps hold as configured. */
  lemma OneJobAtATimeKeepsTheCap(s: Settings, cal: Calendar, ledger: seq<Charge>, steps: seq<Step>,
                                 period: Time -> int, b: Bucket, n: int, cap: real)
    requires CapOf(s, cal, period, b, cap) && forall step :: step in steps ==> NonNegative(step)
    requires forall k :: 0 <= k <= |steps| ==> |Run(s, cal, ledger, steps[..k]).running| <= 1
    ensures var spent := Total(Run(s, cal, ledger, steps).ledger, In(period, b, n));
            var initial := Total(ledger, In(period, b, n));
            var excess := ExcessSince(s, cal, ledger, steps, period, b, n);
            && (spent <= cap + excess || spent == initial + excess)
            && (cal.Sound() && FairRun(s, cal, ledger, steps) ==> spent <= cap || spent == initial)
  {
    RecordedSpendIsBounded(s, cal, ledger, steps, period, b, n, cap);
    NoOthers(s, cal, ledger, steps, period, b, n);
    if cal.Sound() && FairRun(s, cal, ledger, steps) {
      NoExcess(s, cal, ledger, steps, period, b, n, cap);
    }
  }

  lemma {:induction false} NoOthers(s: Settings, cal: Calendar, ledger: seq<Charge>, steps: seq<Step>,
                                    period: Time -> int, b: Bucket, n: int)
    requires forall k :: 0 <= k <= |steps| ==> |Run(s, cal, ledger, steps[..k]).running| <= 1
    ensures var o := OthersAtLastAdmission(s, cal, ledger, steps, period, b, n); o.Some? ==> o.value == 0.0
  {
    if steps != [] {
      var front, step := steps[..|steps| - 1], steps[|steps| - 1];
      forall k | 0 <= k <= |front|
        ensures |Run(s, cal, ledger, front[..k]).running| <= 1
      {
        assert front[..k] == steps[..k];
      }
      NoOthers(s, cal, ledger, front, period, b, n);
      var before := Run(s, cal, ledger, front);
      if Admits(s, cal, before, step) {
        assert steps[..|steps|] == steps;
        assert |Run(s, cal, ledger, steps[..|steps|]).running| == |before.running| + 1;
      }
    }
  }

  /* ---- the bound is attained ---- */

  lemma RunAppend(s: Settings, cal: Calendar, ledger: seq<Charge>, steps: seq<Step>, step: Step)
    ensures Run(s, cal, ledger, steps + [step]) == Next(s, cal, Run(s, cal, ledger, steps), step)
  {
    assert (steps + [step])[..|steps|] == steps;
  }

  ghost predicate InFlight(s: Settings, cal: Calendar, ledger: seq<Charge>, steps: seq<Step>, c: nat) {
    forall k :: 0 <= k <= |steps| ==> |Run(s, cal, ledger, steps[..k]).running| <= c
  }

  /** A run of jobs that keep to their estimates, at most `c` of them at once. */
  ghost predicate Regular(s: Settings, cal: Calendar, ledger: seq<Charge>, steps: seq<Step>, c: nat) {
    && FairRun(s, cal, ledger, steps) && InFlight(s, cal, ledger, steps, c)
    && forall step :: step in steps ==> NonNegative(step)
  }

  lemma FairAppend(s: Settings, cal: Calendar, ledger: seq<Charge>, steps: seq<Step>, step: Step)
    requires FairRun(s, cal, ledger, steps) && Fair(cal, Run(s, cal, ledger, steps), step)
    ensures FairRun(s, cal, ledger, steps + [step])
  {
    var all := steps + [step];
    assert all[..|steps|] == steps;
    forall n | 0 <= n < |all|
      ensures Fair(cal, Run(s, cal, ledger, all[..n]), all[n])
    {
      if n < |steps| {
        assert all[..n] == steps[..n];
      }
    }
  }

  lemma InFlightAppend(s: Settings, cal: Calendar, ledger: seq<Charge>, steps: seq<Step>, step: Step, c: nat)
    requires InFlight(s, cal, ledger, steps, c) && |Run(s, cal, ledger, steps + [step]).running| <= c
    ensures InFlight(s, cal, ledger, steps + [step], c)
  {
    var all := steps + [step];
    forall k | 0 <= k <= |all|
      ensures |Run(s, cal, ledger, all[..k]).running| <= c
    {
      if k <= |steps| {
        assert all[..k] == steps[..k];
      } else {
        assert all[..k] == all;
      }
    }
  }

  lemma RegularAppend(s: Settings, cal: Calendar, ledger: seq<Charge>, steps: seq<Step>, step: Step, c: nat)
    requires Regular(s, cal, ledger, steps, c) && NonNegative(step)
    requires var sys := Run(s, cal, ledger, steps);
             Fair(cal, sys, step) && |Next(s, cal, sys, step).running| <= c
    ensures Regular(s, cal, ledger, steps + [step], c)
  {
    RunAppend(s, cal, ledger, steps, step);
    FairAppend(s, cal, ledger, steps, step);
    InFlightAppend(s, cal, ledger, steps, step, c);
  }

  function Copies(n: nat, charge: Charge): seq<Charge> { seq(n, _ => charge) }

  lemma CopiesWithout(n: nat, charge: Charge)
    requires n > 0
    ensures Without(Copies(n, charge), 0) == Copies(n - 1, charge)
  {
  }

  lemma TotalCopies(n: nat, charge: Charge, p: Charge -> bool)
    requires p(charge)
    ensures Total(Copies(n + 1, charge), p) == Total(Copies(n, charge), p) + charge.amount
  {
    assert Copies(n + 1, charge) == Copies(n, charge) + [charge];
    TotalAppend(Copies(n, charge), charge, p);
  }

  /** The charges of one bucket and day. */
  function Today(cal: Calendar, kind: Kind, now: Time): Charge -> bool { In(cal.day, BucketOf(kind), cal.day(now)) }

  /** The estimate that uses up the bucket's day. */
  function WholeDay(s: Settings, kind: Kind, now: Time): Charge { Charge(kind, DailyCap(s, BucketOf(kind)), now) }

  /** After `n` admissions of such jobs at one moment, none of them recorded yet. */
  ghost predicate Admitted(s: Settings, cal: Calendar, kind: Kind, now: Time, steps: seq<Step>, n: nat, c: nat) {
    && Run(s, cal, [], steps) == Sys([], Copies(n, WholeDay(s, kind, now)))
    && Regular(s, cal, [], steps, c)
    && (n > 0 ==> OthersAtLastAdmission(s, cal, [], steps, cal.day, BucketOf(kind), cal.day(now))
                  == Some(Total(Copies(n - 1, WholeDay(s, kind, now)), Today(cal, kind, now))))
  }

  lemma AdmitAnother(s: Settings, cal: Calendar, kind: Kind, now: Time, steps: seq<Step>, n: nat, c: nat)
    returns (more: seq<Step>)
    requires !kind.TIER3_REVIEW? && 0.0 <= DailyCap(s, BucketOf(kind)) <= WeeklyCap(s, BucketOf(kind))
    requires Admitted(s, cal, kind, now, steps, n, c) && n < c
    ensures Admitted(s, cal, kind, now, more, n + 1, c)
  {
    var step := Admit(kind, DailyCap(s, BucketOf(kind)), now);
    var before := Run(s, cal, [], steps);
    assert Admits(s, cal, before, step);
    more := steps + [step];
    assert more[..|steps|] == steps;
    RunAppend(s, cal, [], steps, step);
    assert Copies(n, WholeDay(s, kind, now)) + [WholeDay(s, kind, now)] == Copies(n + 1, WholeDay(s, kind, now));
    RegularAppend(s, cal, [], steps, step, c);
  }

  /** `k` of the jobs recorded, `n` still running. */
  ghost predicate Recording(s: Settings, cal: Calendar, kind: Kind, now: Time, steps: seq<Step>, k: nat, n: nat,
                            others: Option<real>, c: nat) {
    && Run(s, cal, [], steps) == Sys(Copies(k, WholeDay(s, kind, now)), Copies(n, WholeDay(s, kind, now)))
    && Regular(s, cal, [], steps, c)
    && OthersAtLastAdmission(s, cal, [], steps, cal.day, BucketOf(kind), cal.day(now)) == others
  }

  lemma RecordAnother(s: Settings, cal: Calendar, kind: Kind, now: Time, steps: seq<Step>, k: nat, n: nat,
                      others: Option<real>, c: nat) returns (more: seq<Step>)
    requires Recording(s, cal, kind, now, steps, k, n, others, c) && 0 < n <= c
    requires 0.0 <= DailyCap(s, BucketOf(kind))
    ensures Recording(s, cal, kind, now, more, k + 1, n - 1, others, c)
  {
    var step := Finish(0, DailyCap(s, BucketOf(kind)), now);
    more := steps + [step];
    assert more[..|steps|] == steps;
    CopiesWithout(n, WholeDay(s, kind, now));
    RunAppend(s, cal, [], steps, step);
    assert Copies(k, WholeDay(s, kind, now)) + [WholeDay(s, kind, now)] == Copies(k + 1, WholeDay(s, kind, now));
    RegularAppend(s, cal, [], steps, step, c);
  }

  lemma {:induction false} AdmitAll(s: Settings, cal: Calendar, kind: Kind, now: Time, n: nat, c: nat)
    returns (steps: seq<Step>)
    requires !kind.TIER3_REVIEW? && 0.0 <= DailyCap(s, BucketOf(kind)) <= WeeklyCap(s, BucketOf(kind)) && n <= c
    ensures Admitted(s, cal, kind, now, steps, n, c)
  {
    if n == 0 {
      steps := [];
    } else {
      steps := AdmitAll(s, cal, kind, now, n - 1, c);
      steps := AdmitAnother(s, cal, kind, now, steps, n - 1, c);
    }
  }

  lemma {:induction false} RecordAll(s: Settings, cal: Calendar, kind: Kind, now: Time, admitted: seq<Step>,
                                     k: nat, n: nat, others: Option<real>, c: nat) returns (steps: seq<Step>)
    requires Recording(s, cal, kind, now, admitted, 0, c, others, c) && k + n == c
    requires 0.0 <= DailyCap(s, BucketOf(kind))
    ensures Recording(s, cal, kind, now, steps, k, n, others, c)
    decreases k
  {
    if k == 0 {
      steps := admitted;
    } else {
      steps := RecordAll(s, cal, kind, now, admitted, k - 1, n + 1, others, c);
      steps := RecordAnother(s, cal, kind, now, steps, k - 1, n + 1, others, c);
    }
  }

  /** The bound is exact: with `c` jobs in flight that all keep to their estimates, a day's spend
      reaches the cap plus the estimates of the other jobs, c - 1 times the cap. */
  lemma BoundIsAttained(s: Settings, cal: Calendar, kind: Kind, now: Time, c: nat) returns (steps: seq<Step>)
    requires !kind.TIER3_REVIEW? && 0.0 <= DailyCap(s, BucketOf(kind)) <= WeeklyCap(s, BucketOf(kind)) && c > 0
    ensures Regular(s, cal, [], steps, c)
    ensures var spent := Total(Run(s, cal, [], steps).ledger, Today(cal, kind, now));
            var others := OthersAtLastAdmission(s, cal, [], steps, cal.day, BucketOf(kind), cal.day(now));
            && others == Some(Total(Copies(c - 1, WholeDay(s, kind, now)), Today(cal, kind, now)))
            && spent == DailyCap(s, BucketOf(kind)) + others.value
  {
    var admitted := AdmitAll(s, cal, kind, now, c, c);
    var others := Some(Total(Copies(c - 1, WholeDay(s, kind, now)), Today(cal, kind, now)));
    assert Recording(s, cal, kind, now, admitted, 0, c, others, c);
    steps := RecordAll(s, cal, kind, now, admitted, c, 0, others, c);
    TotalCopies(c - 1, WholeDay(s, kind, now), Today(cal, kind, now));
  }

  /** From an empty ledger the day's cap is kept by every run of jobs that keep to their
      estimates, if and only if no two of them may be in flight at once. */
  lemma CapKeptIff(s: Settings, cal: Calendar, kind: Kind, now: Time, c: nat)
    requires !kind.TIER3_REVIEW? && 0.0 < DailyCap(s, BucketOf(kind)) <= WeeklyCap(s, BucketOf(kind))
    requires cal.Sound() && c > 0
    ensures (forall steps :: Regular(s, cal, [], steps, c)
               ==> Total(Run(s, cal, [], steps).ledger, Today(cal, kind, now)) <= DailyCap(s, BucketOf(kind)))
       <==> c == 1
  {
    var b, cap := BucketOf(kind), DailyCap(s, BucketOf(kind));
    if c == 1 {
      forall steps | Regular(s, cal, [], steps, c)
        ensures Total(Run(s, cal, [], steps).ledger, Today(cal, kind, now)) <= cap
      {
        OneJobAtATimeKeepsTheCap(s, cal, [], steps, cal.day, b, cal.day(now), cap);
      }
    } else {
      var steps := BoundIsAttained(s, cal, kind, now, c);
      var whole, p := WholeDay(s, kind, now), Today(cal, kind, now);
      TotalNonNegative(Copies(c - 2, whole), p);
      TotalCopies(c - 2, whole, p);
      assert Total(Run(s, cal, [], steps).ledger, p) > cap;
    }
  }

  /* ---- the daylight window ---- */

  /** _inside_day_window, for a second of the day. */
  function InsideDayWindow(second: int, startHour: int, durationHours: int): bool {
    var endHour := (startHour + durationHours) % 24;
    if durationHours >= 24 then true
    else if startHour < endHour then startHour * 3600 <= second < endHour * 3600
    else second >= startHour * 3600 || second < endHour * 3600
  }

  /** The window is the `durationHours` hours after `startHour`, around midnight if need be. */
  lemma DayWindowIsCircular(second: int, startHour: int, durationHours: int)
    requires 0 <= second < 86400 && 0 <= startHour <= 23 && 1 <= durationHours <= 24
    ensures InsideDayWindow(second, startHour, durationHours)
          <==> (second - startHour * 3600) % 86400 < durationHours * 3600
  {
    if startHour + durationHours >= 24 {
      assert (startHour + durationHours) % 24 == startHour + durationHours - 24;
    }
    if second >= startHour * 3600 {
      assert (second - startHour * 3600) % 86400 == second - startHour * 3600;
    } else {
      assert (second - startHour * 3600) % 86400 == second - startHour * 3600 + 86400;
    }
  }
}
