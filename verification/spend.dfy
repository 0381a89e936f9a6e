/** The budget of the runtime: every run of the protocol whose jobs pass the budget gate is a run
    of the budget model, so that its bounds hold of the runtime's own jobs. */
module Spend {
  import opened Common
  import opened Jobs
  import opened JobStore
  import opened Runtime
  import opened Protocol
  import opened Saves
  import opened Safety
  import opened Effects
  import B = Budget

  /** The caps and the calendar, the budget metadata of each job, the time of each operation, and
      the ledger at the start. */
  datatype Env = Env(settings: B.Settings, cal: B.Calendar, meta: Id -> B.Metadata, clock: nat -> Time,
                     initial: seq<B.Charge>)

  /* ---- gate and ledger ---- */

  /** What the budget gate makes of a new job. */
  predicate GateAllows(env: Env, ledger: seq<B.Charge>, id: Id, now: Time) {
    match B.ReadForPreflight(env.meta(id))
    case Ungated => true
    case Error(_) => false
    case Gated(kind, estimate) =>
      B.Decide(env.settings, kind, B.Snapshot(env.cal, ledger, kind, estimate, now)).ALLOW?
  }

  /** On metadata, settings and ledger: a job without a budget kind passes; one with a kind passes with
      a readable estimate that its bucket's day and week have room for, unless it is a review. */
  lemma GateMeans(env: Env, ledger: seq<B.Charge>, id: Id, now: Time)
    ensures GateAllows(env, ledger, id, now) <==>
            var m := env.meta(id);
            || m.kind == B.NoKind
            || (&& m.kind.KnownKind? && m.kind.kind != B.TIER3_REVIEW
                && m.estimated.Amount? && m.estimated.value >= 0.0
                && B.SpentOn(env.cal, ledger, m.kind.kind, now) + m.estimated.value
                   <= (if m.kind.kind == B.CODING then env.settings.codingDaily else env.settings.loopDaily)
                && B.SpentInWeek(env.cal, ledger, m.kind.kind, now) + m.estimated.value
                   <= (if m.kind.kind == B.CODING then env.settings.codingWeekly else env.settings.loopWeekly))
  {
    var m := env.meta(id);
    if m.kind.KnownKind? && m.estimated.Amount? {
      B.DecisionMeans(env.settings, env.cal, ledger, m.kind.kind, m.estimated.value, now);
    }
  }

  /** The job the operation hands to the usage recorder. */
  function Handed(s: Sys, s': Sys): Option<Id> {
    if |s'.recorded| > |s.recorded| then Some(s'.recorded[|s'.recorded| - 1]) else None
  }

  /** The recorder appends before it suspends. */
  function Appended(env: Env, ledger: seq<B.Charge>, handed: Option<Id>, now: Time): seq<B.Charge> {
    if handed.None? then ledger
    else
      var record := B.ReadForRecord(env.meta(handed.value), now);
      if record.Some? then ledger + [record.value] else ledger
  }

  ghost function Ledger(cfg: Config, env: Env, ops: seq<Op>): seq<B.Charge> {
    if ops == [] then env.initial
    else
      var front := ops[..|ops| - 1];
      Appended(env, Ledger(cfg, env, front), Handed(Reached(cfg, front), Reached(cfg, ops)), env.clock(|front|))
  }

  /** The job the operation creates. */
  function CreatedBy(s: Sys, op: Op, s': Sys): Option<Id> {
    match CallOf(op)
    case Create(id, _, _, _, _) => if id !in s.core.store.jobs && id in s'.core.store.jobs then Some(id) else None
    case _ => None
  }

  /** `preflight` is in every creation the gate's answer on the ledger of that moment. */
  ghost predicate GateAnswers(cfg: Config, env: Env, ops: seq<Op>) {
    ops != [] ==>
      var front, op := ops[..|ops| - 1], CallOf(ops[|ops| - 1]);
      && (op.Create? ==>
            (op.preflight.None? <==> GateAllows(env, Ledger(cfg, env, front), op.newId, env.clock(|front|))))
      && GateAnswers(cfg, env, front)
  }

  /** What the recorder makes of a hand-over: one charge of the job's kind, of its observed cost or
      else its estimate, if that is readable and not negative, and otherwise nothing. */
  lemma AppendedMeans(env: Env, ledger: seq<B.Charge>, id: Id, now: Time)
    ensures Appended(env, ledger, None, now) == ledger
    ensures var m := env.meta(id);
            var cost := if m.observed == B.Missing then m.estimated else m.observed;
            Appended(env, ledger, Some(id), now)
            == ledger + if m.kind.KnownKind? && cost.Amount? && cost.value >= 0.0
                        then [B.Charge(m.kind.kind, cost.value, now)] else []
  {
  }

  /* ---- reservations ---- */

  /** The estimate of a job that is not settled yet. */
  datatype Ticket = Ticket(id: Id, charge: B.Charge)

  function Charges(t: seq<Ticket>): seq<B.Charge> { seq(|t|, i requires 0 <= i < |t| => t[i].charge) }

  function Without(t: seq<Ticket>, i: nat): seq<Ticket>
    requires i < |t|
  {
    t[..i] + t[i + 1..]
  }

  function IndexOf(t: seq<Ticket>, id: Id): (i: Option<nat>)
    ensures i.Some? ==> i.value < |t| && t[i.value].id == id
    ensures i.None? ==> forall x :: x in t ==> x.id != id
  {
    if t == [] then None
    else if t[|t| - 1].id == id then Some(|t| - 1)
    else IndexOf(t[..|t| - 1], id)
  }

  /** The job may still be recorded: it is unfinished, or a run of it is staging. */
  ghost predicate Open(s: Sys, id: Id) {
    id in s.core.store.jobs && (!Terminal(s.core.store.jobs[id].status) || StagingRuns(s.runs, id) != {})
  }

  /** Steps of the budget model, and the reservations after them. */
  datatype Booked = Booked(steps: seq<B.Step>, tickets: seq<Ticket>)

  function Admission(env: Env, created: Option<Id>, now: Time, t: seq<Ticket>): Booked {
    if created.None? then Booked([], t)
    else
      match B.ReadForPreflight(env.meta(created.value))
      case Gated(kind, estimate) =>
        Booked([B.Admit(kind, estimate, now)], t + [Ticket(created.value, B.Charge(kind, estimate, now))])
      case _ => Booked([], t)
  }

  function Settlement(env: Env, handed: Option<Id>, now: Time, t: seq<Ticket>): Booked {
    if handed.None? then Booked([], t)
    else
      var record := B.ReadForRecord(env.meta(handed.value), now);
      match IndexOf(t, handed.value)
      case Some(i) =>
        Booked([if record.Some? then B.Finish(i, record.value.amount, now) else B.Drop(i)], Without(t, i))
      case None =>
        Booked(if record.Some? then [B.Unreserved(record.value.kind, record.value.amount, now)] else [], t)
  }

  /** The first `n` reservations without those of jobs that are closed. */
  ghost function Release(s: Sys, t: seq<Ticket>, n: nat): Booked
    requires n <= |t|
  {
    if n == 0 then Booked([], t)
    else if Open(s, t[n - 1].id) then Release(s, t, n - 1)
    else
      var rest := Release(s, Without(t, n - 1), n - 1);
      Booked([B.Drop(n - 1)] + rest.steps, rest.tickets)
  }

  /** What one operation means to the budget. */
  ghost function BookOne(env: Env, s: Sys, op: Op, s': Sys, now: Time, t: seq<Ticket>): Booked {
    var admitted := Admission(env, CreatedBy(s, op, s'), now, t);
    var settled := Settlement(env, Handed(s, s'), now, admitted.tickets);
    var released := Release(s', settled.tickets, |settled.tickets|);
    Booked(admitted.steps + settled.steps + released.steps, released.tickets)
  }

  ghost function Book(cfg: Config, env: Env, ops: seq<Op>): Booked {
    if ops == [] then Booked([], [])
    else
      var front, op := ops[..|ops| - 1], ops[|ops| - 1];
      var before := Book(cfg, env, front);
      var one := BookOne(env, Reached(cfg, front), op, Reached(cfg, ops), env.clock(|front|), before.tickets);
      Booked(before.steps + one.steps, one.tickets)
  }

  /* ---- the simulation ---- */

  function Fold(env: Env, sys: B.Sys, steps: seq<B.Step>): B.Sys {
    if steps == [] then sys
    else B.Next(env.settings, env.cal, Fold(env, sys, steps[..|steps| - 1]), steps[|steps| - 1])
  }

  lemma {:induction false} RunConcat(env: Env, a: seq<B.Step>, b: seq<B.Step>)
    ensures B.Run(env.settings, env.cal, env.initial, a + b)
         == Fold(env, B.Run(env.settings, env.cal, env.initial, a), b)
  {
    if b == [] {
      assert a + b == a;
    } else {
      RunConcat(env, a, b[..|b| - 1]);
      FrontOfConcat(a, b);
    }
  }

  lemma {:induction false} FoldConcat(env: Env, sys: B.Sys, a: seq<B.Step>, b: seq<B.Step>)
    ensures Fold(env, sys, a + b) == Fold(env, Fold(env, sys, a), b)
  {
    if b == [] {
      assert a + b == a;
    } else {
      FoldConcat(env, sys, a, b[..|b| - 1]);
      FrontOfConcat(a, b);
    }
  }

  lemma FoldOne(env: Env, sys: B.Sys, step: B.Step)
    ensures Fold(env, sys, [step]) == B.Next(env.settings, env.cal, sys, step)
  {
    assert [step][..0] == [];
  }

  /** A reservation is the estimate of its job. */
  ghost predicate Estimates(env: Env, t: seq<Ticket>) {
    forall x :: x in t ==> B.ReadForPreflight(env.meta(x.id)) == B.Gated(x.charge.kind, x.charge.amount)
  }

  lemma WithoutCharges(t: seq<Ticket>, i: nat)
    requires i < |t|
    ensures Charges(Without(t, i)) == B.Without(Charges(t), i)
    ensures forall x :: x in Without(t, i) ==> x in t
  {
  }

  lemma AdmissionSimulates(env: Env, ledger: seq<B.Charge>, created: Option<Id>, now: Time, t: seq<Ticket>)
    requires Estimates(env, t) && (created.Some? ==> GateAllows(env, ledger, created.value, now))
    ensures var a := Admission(env, created, now, t);
            && Fold(env, B.Sys(ledger, Charges(t)), a.steps) == B.Sys(ledger, Charges(a.tickets))
            && Estimates(env, a.tickets)
  {
    var a := Admission(env, created, now, t);
    if a.steps != [] {
      FoldOne(env, B.Sys(ledger, Charges(t)), a.steps[0]);
      assert Charges(a.tickets) == Charges(t) + [a.tickets[|t|].charge];
    }
  }

  lemma SettlementSimulates(env: Env, ledger: seq<B.Charge>, handed: Option<Id>, now: Time, t: seq<Ticket>)
    requires Estimates(env, t)
    ensures var b := Settlement(env, handed, now, t);
            && Fold(env, B.Sys(ledger, Charges(t)), b.steps)
               == B.Sys(Appended(env, ledger, handed, now), Charges(b.tickets))
            && Estimates(env, b.tickets)
  {
    var b := Settlement(env, handed, now, t);
    if handed.Some? && IndexOf(t, handed.value).Some? {
      WithoutCharges(t, IndexOf(t, handed.value).value);
      assert t[IndexOf(t, handed.value).value] in t;
    }
    if b.steps != [] {
      FoldOne(env, B.Sys(ledger, Charges(t)), b.steps[0]);
    }
  }

  lemma {:induction false} ReleaseSimulates(env: Env, ledger: seq<B.Charge>, s: Sys, t: seq<Ticket>, n: nat)
    requires Estimates(env, t) && n <= |t|
    ensures var c := Release(s, t, n);
            && Fold(env, B.Sys(ledger, Charges(t)), c.steps) == B.Sys(ledger, Charges(c.tickets))
            && Estimates(env, c.tickets)
    decreases n
  {
    if n > 0 {
      if Open(s, t[n - 1].id) {
        ReleaseSimulates(env, ledger, s, t, n - 1);
      } else {
        WithoutCharges(t, n - 1);
        ReleaseSimulates(env, ledger, s, Without(t, n - 1), n - 1);
        FoldOne(env, B.Sys(ledger, Charges(t)), B.Drop(n - 1));
        FoldConcat(env, B.Sys(ledger, Charges(t)), [B.Drop(n - 1)], Release(s, Without(t, n - 1), n - 1).steps);
      }
    }
  }

  lemma BookOneSimulates(env: Env, ledger: seq<B.Charge>, s: Sys, op: Op, s': Sys, now: Time, t: seq<Ticket>)
    requires Estimates(env, t)
    requires CreatedBy(s, op, s').Some? ==> GateAllows(env, ledger, CreatedBy(s, op, s').value, now)
    ensures var one := BookOne(env, s, op, s', now, t);
            && Fold(env, B.Sys(ledger, Charges(t)), one.steps)
               == B.Sys(Appended(env, ledger, Handed(s, s'), now), Charges(one.tickets))
            && Estimates(env, one.tickets)
  {
    var a := Admission(env, CreatedBy(s, op, s'), now, t);
    var b := Settlement(env, Handed(s, s'), now, a.tickets);
    AdmissionSimulates(env, ledger, CreatedBy(s, op, s'), now, t);
    SettlementSimulates(env, ledger, Handed(s, s'), now, a.tickets);
    ReleaseSimulates(env, Appended(env, ledger, Handed(s, s'), now), s', b.tickets, |b.tickets|);
    FoldConcat(env, B.Sys(ledger, Charges(t)), a.steps, b.steps);
    FoldConcat(env, B.Sys(ledger, Charges(t)), a.steps + b.steps, Release(s', b.tickets, |b.tickets|).steps);
  }

  /** Only an allowed job is created. */
  lemma CreatedIsAllowed(cfg: Config, s: Sys, op: Op)
    requires Wf(s)
    ensures CreatedBy(s, op, Apply(cfg, s, op)).Some? ==> CallOf(op).preflight.None?
  {
    StepEffect(cfg, s, op);
    var created := CreatedBy(s, op, Apply(cfg, s, op));
    if created.Some? {
      assert NewJobStep(cfg, RightOf(op), s.core.store, Apply(cfg, s, op).core.store.jobs[created.value]);
    }
  }

  lemma LastBooked(cfg: Config, env: Env, ops: seq<Op>)
    requires ops != [] && GateAnswers(cfg, env, ops)
    ensures var front, op := ops[..|ops| - 1], ops[|ops| - 1];
            var s, s', now := Reached(cfg, front), Reached(cfg, ops), env.clock(|front|);
            && GateAnswers(cfg, env, front)
            && (CreatedBy(s, op, s').Some? ==>
                  GateAllows(env, Ledger(cfg, env, front), CreatedBy(s, op, s').value, now))
  {
    CreatedIsAllowed(cfg, Reached(cfg, ops[..|ops| - 1]), ops[|ops| - 1]);
  }

  /** The ledger of a run of the protocol is that of a run of the budget model, which admits a job
      when it is created, finishes it when it is handed to the recorder, and drops it when it has
      closed without that. */
  lemma {:induction false} ProtocolIsBudgetRun(cfg: Config, env: Env, ops: seq<Op>)
    requires GateAnswers(cfg, env, ops)
    ensures var book := Book(cfg, env, ops);
            && B.Run(env.settings, env.cal, env.initial, book.steps)
               == B.Sys(Ledger(cfg, env, ops), Charges(book.tickets))
            && Estimates(env, book.tickets)
  {
    if ops != [] {
      var front, op := ops[..|ops| - 1], ops[|ops| - 1];
      var before, s, s' := Book(cfg, env, front), Reached(cfg, front), Reached(cfg, ops);
      LastBooked(cfg, env, ops);
      ProtocolIsBudgetRun(cfg, env, front);
      var one := BookOne(env, s, op, s', env.clock(|front|), before.tickets);
      BookOneSimulates(env, Ledger(cfg, env, front), s, op, s', env.clock(|front|), before.tickets);
      RunConcat(env, before.steps, one.steps);
    }
  }

  /* ---- the bound ---- */

  lemma {:induction false} ReleaseDrops(s: Sys, t: seq<Ticket>, n: nat)
    requires n <= |t|
    ensures forall step :: step in Release(s, t, n).steps ==> step.Drop?
    decreases n
  {
    if n > 0 {
      if Open(s, t[n - 1].id) {
        ReleaseDrops(s, t, n - 1);
      } else {
        ReleaseDrops(s, Without(t, n - 1), n - 1);
      }
    }
  }

  lemma BookOneIsNonNegative(env: Env, s: Sys, op: Op, s': Sys, now: Time, t: seq<Ticket>)
    ensures forall step :: step in BookOne(env, s, op, s', now, t).steps ==> B.NonNegative(step)
  {
    var a := Admission(env, CreatedBy(s, op, s'), now, t);
    var b := Settlement(env, Handed(s, s'), now, a.tickets);
    ReleaseDrops(s', b.tickets, |b.tickets|);
  }

  lemma {:induction false} StepsAreNonNegative(cfg: Config, env: Env, ops: seq<Op>)
    ensures forall step :: step in Book(cfg, env, ops).steps ==> B.NonNegative(step)
  {
    if ops != [] {
      var front, op := ops[..|ops| - 1], ops[|ops| - 1];
      StepsAreNonNegative(cfg, env, front);
      BookOneIsNonNegative(env, Reached(cfg, front), op, Reached(cfg, ops), env.clock(|front|),
                           Book(cfg, env, front).tickets);
    }
  }

  /** The estimates of the other open jobs of the bucket and period when its last job was created. */
  ghost function OthersAtLastCreation(cfg: Config, env: Env, ops: seq<Op>, period: Time -> int, b: B.Bucket, n: int):
    Option<real>
  {
    if ops == [] then None
    else
      var front := ops[..|ops| - 1];
      var created := CreatedBy(Reached(cfg, front), ops[|ops| - 1], Reached(cfg, ops));
      if created.Some? && CountsFor(env, created.value, env.clock(|front|), period, b, n)
      then Some(B.Total(Charges(Book(cfg, env, front).tickets), B.In(period, b, n)))
      else OthersAtLastCreation(cfg, env, front, period, b, n)
  }

  predicate CountsFor(env: Env, id: Id, now: Time, period: Time -> int, b: B.Bucket, n: int) {
    var m := B.ReadForPreflight(env.meta(id));
    m.Gated? && B.BucketOf(m.kind) == b && period(now) == n
  }

  lemma {:induction false} OthersStay(env: Env, a: seq<B.Step>, more: seq<B.Step>, period: Time -> int, b: B.Bucket,
                                      n: int)
    requires forall step :: step in more ==> !step.Admit?
    ensures B.OthersAtLastAdmission(env.settings, env.cal, env.initial, a + more, period, b, n)
         == B.OthersAtLastAdmission(env.settings, env.cal, env.initial, a, period, b, n)
  {
    if more == [] {
      assert a + more == a;
    } else {
      FrontOfConcat(a, more);
      OthersStay(env, a, more[..|more| - 1], period, b, n);
    }
  }

  lemma OthersAfterAdmission(env: Env, a: seq<B.Step>, created: Option<Id>, now: Time, ledger: seq<B.Charge>,
                             t: seq<Ticket>, period: Time -> int, b: B.Bucket, n: int)
    requires B.Run(env.settings, env.cal, env.initial, a) == B.Sys(ledger, Charges(t))
    requires created.Some? ==> GateAllows(env, ledger, created.value, now)
    ensures B.OthersAtLastAdmission(env.settings, env.cal, env.initial, a + Admission(env, created, now, t).steps,
                                    period, b, n)
         == if created.Some? && CountsFor(env, created.value, now, period, b, n)
            then Some(B.Total(Charges(t), B.In(period, b, n)))
            else B.OthersAtLastAdmission(env.settings, env.cal, env.initial, a, period, b, n)
  {
    var steps := Admission(env, created, now, t).steps;
    if steps == [] {
      assert a + steps == a;
    } else {
      assert (a + steps)[..|a|] == a;
    }
  }

  /** What follows the admission, if any, in one operation. */
  ghost function LaterSteps(env: Env, s: Sys, op: Op, s': Sys, now: Time, t: seq<Ticket>): seq<B.Step> {
    var settled := Settlement(env, Handed(s, s'), now, Admission(env, CreatedBy(s, op, s'), now, t).tickets);
    settled.steps + Release(s', settled.tickets, |settled.tickets|).steps
  }

  lemma LaterStepsAdmitNothing(env: Env, a: seq<B.Step>, s: Sys, op: Op, s': Sys, now: Time, t: seq<Ticket>)
    ensures forall step :: step in LaterSteps(env, s, op, s', now, t) ==> !step.Admit?
    ensures a + BookOne(env, s, op, s', now, t).steps
         == a + Admission(env, CreatedBy(s, op, s'), now, t).steps + LaterSteps(env, s, op, s', now, t)
  {
    var settled := Settlement(env, Handed(s, s'), now, Admission(env, CreatedBy(s, op, s'), now, t).tickets);
    ReleaseDrops(s', settled.tickets, |settled.tickets|);
  }

  lemma OthersAfterOne(env: Env, a: seq<B.Step>, s: Sys, op: Op, s': Sys, now: Time, ledger: seq<B.Charge>,
                       t: seq<Ticket>, period: Time -> int, b: B.Bucket, n: int)
    requires B.Run(env.settings, env.cal, env.initial, a) == B.Sys(ledger, Charges(t))
    requires CreatedBy(s, op, s').Some? ==> GateAllows(env, ledger, CreatedBy(s, op, s').value, now)
    ensures B.OthersAtLastAdmission(env.settings, env.cal, env.initial, a + BookOne(env, s, op, s', now, t).steps,
                                    period, b, n)
         == if CreatedBy(s, op, s').Some? && CountsFor(env, CreatedBy(s, op, s').value, now, period, b, n)
            then Some(B.Total(Charges(t), B.In(period, b, n)))
            else B.OthersAtLastAdmission(env.settings, env.cal, env.initial, a, period, b, n)
  {
    var created := CreatedBy(s, op, s');
    OthersAfterAdmission(env, a, created, now, ledger, t, period, b, n);
    LaterStepsAdmitNothing(env, a, s, op, s', now, t);
    OthersStay(env, a + Admission(env, created, now, t).steps, LaterSteps(env, s, op, s', now, t), period, b, n);
  }

  lemma {:induction false} OthersAreTheSame(cfg: Config, env: Env, ops: seq<Op>, period: Time -> int, b: B.Bucket,
                                            n: int)
    requires GateAnswers(cfg, env, ops)
    ensures B.OthersAtLastAdmission(env.settings, env.cal, env.initial, Book(cfg, env, ops).steps, period, b, n)
         == OthersAtLastCreation(cfg, env, ops, period, b, n)
  {
    if ops != [] {
      var front, op := ops[..|ops| - 1], ops[|ops| - 1];
      var before := Book(cfg, env, front);
      LastBooked(cfg, env, ops);
      ProtocolIsBudgetRun(cfg, env, front);
      OthersAreTheSame(cfg, env, front, period, b, n);
      OthersAfterOne(env, before.steps, Reached(cfg, front), op, Reached(cfg, ops), env.clock(|front|),
                     Ledger(cfg, env, front), before.tickets, period, b, n);
    }
  }

  /** In every run of the runtime, whatever interleaves, what a bucket has recorded for a day or a
      week exceeds the cap by at most the estimates of the other jobs that were open when the last
      one was created, plus the excess since; without a creation it gains exactly the excess. */
  lemma SpendIsBounded(cfg: Config, env: Env, ops: seq<Op>, period: Time -> int, b: B.Bucket, n: int, cap: real)
    requires B.CapOf(env.settings, env.cal, period, b, cap) && GateAnswers(cfg, env, ops)
    ensures var spent := B.Total(Ledger(cfg, env, ops), B.In(period, b, n));
            var others := OthersAtLastCreation(cfg, env, ops, period, b, n);
            var excess := B.ExcessSince(env.settings, env.cal, env.initial, Book(cfg, env, ops).steps, period, b, n);
            if others.None? then spent == B.Total(env.initial, B.In(period, b, n)) + excess
            else spent <= cap + others.value + excess
  {
    ProtocolIsBudgetRun(cfg, env, ops);
    StepsAreNonNegative(cfg, env, ops);
    OthersAreTheSame(cfg, env, ops, period, b, n);
    B.RecordedSpendIsBounded(env.settings, env.cal, env.initial, Book(cfg, env, ops).steps, period, b, n, cap);
  }

  /* ---- who holds a reservation ---- */

  lemma WithoutLast(t: seq<Ticket>, i: nat)
    requires i < |t|
    ensures forall x :: x in t <==> x in Without(t, i) || x == t[i]
    ensures Once(t) ==> Once(Without(t, i))
  {
    forall x | x in t
      ensures x in Without(t, i) || x == t[i]
    {
      var k :| 0 <= k < |t| && t[k] == x;
      assert k != i ==> x == Without(t, i)[if k < i then k else k - 1];
    }
  }

  lemma {:induction false} ReleaseKeepsOpen(s: Sys, t: seq<Ticket>, n: nat)
    requires n <= |t| && forall i :: n <= i < |t| ==> Open(s, t[i].id)
    ensures forall x :: x in Release(s, t, n).tickets <==> x in t && Open(s, x.id)
    ensures Once(t) ==> Once(Release(s, t, n).tickets)
    decreases n
  {
    if n > 0 {
      if Open(s, t[n - 1].id) {
        ReleaseKeepsOpen(s, t, n - 1);
      } else {
        WithoutLast(t, n - 1);
        ReleaseKeepsOpen(s, Without(t, n - 1), n - 1);
      }
    }
  }

  /** No job holds two reservations. */
  ghost predicate Once(t: seq<Ticket>) { forall i, j :: 0 <= i < j < |t| ==> t[i].id != t[j].id }

  ghost predicate HasTicket(t: seq<Ticket>, id: Id) { exists x :: x in t && x.id == id }

  lemma WithoutKeepsOthers(t: seq<Ticket>, i: nat)
    requires i < |t| && Once(t)
    ensures Once(Without(t, i))
    ensures forall id :: HasTicket(Without(t, i), id) <==> HasTicket(t, id) && id != t[i].id
  {
    forall x
      ensures x in Without(t, i) <==> x in t && x.id != t[i].id
    {
      if x in t && x.id != t[i].id {
        var k :| 0 <= k < |t| && t[k] == x;
        assert x == if k < i then t[..i][k] else t[i + 1..][k - i - 1];
      }
      if x in Without(t, i) {
        var k :| 0 <= k < |Without(t, i)| && Without(t, i)[k] == x;
        assert x == if k < i then t[k] else t[k + 1];
      }
    }
  }

  lemma SettlementKeeps(env: Env, handed: Option<Id>, now: Time, t: seq<Ticket>)
    requires Once(t)
    ensures var b := Settlement(env, handed, now, t).tickets;
            && Once(b)
            && (forall id: Id :: HasTicket(b, id) <==> HasTicket(t, id) && handed != Some(id))
  {
    if handed.Some? {
      match IndexOf(t, handed.value)
      case Some(i) => WithoutKeepsOthers(t, i);
      case None =>
    }
  }

  lemma AdmissionAdds(env: Env, created: Option<Id>, now: Time, t: seq<Ticket>)
    requires Once(t) && (created.Some? ==> !HasTicket(t, created.value))
    ensures var a := Admission(env, created, now, t).tickets;
            && Once(a)
            && (forall id: Id :: HasTicket(a, id) <==>
                  HasTicket(t, id) || (created == Some(id) && B.ReadForPreflight(env.meta(id)).Gated?))
  {
    var a := Admission(env, created, now, t).tickets;
    if a != t {
      assert forall x :: x in a <==> x in t || x == a[|t|];
      assert a[|t|] in a && forall x :: x in t ==> x.id != created.value;
    }
  }

  /** After an operation a job holds a reservation exactly when it held or got one, was not handed
      to the recorder, and is open. */
  lemma BookOneTickets(env: Env, s: Sys, op: Op, s': Sys, now: Time, t: seq<Ticket>)
    requires Once(t) && forall x :: x in t ==> Open(s, x.id)
    ensures var t' := BookOne(env, s, op, s', now, t).tickets;
            && Once(t')
            && (forall id: Id :: HasTicket(t', id) <==>
                  && (HasTicket(t, id)
                      || (CreatedBy(s, op, s') == Some(id) && B.ReadForPreflight(env.meta(id)).Gated?))
                  && Handed(s, s') != Some(id) && Open(s', id))
  {
    var created := CreatedBy(s, op, s');
    var a := Admission(env, created, now, t);
    var b := Settlement(env, Handed(s, s'), now, a.tickets);
    AdmissionAdds(env, created, now, t);
    SettlementKeeps(env, Handed(s, s'), now, a.tickets);
    ReleaseKeepsOpen(s', b.tickets, |b.tickets|);
  }

  lemma {:induction false} TicketsAreOpen(cfg: Config, env: Env, ops: seq<Op>)
    ensures var t := Book(cfg, env, ops).tickets; Once(t) && forall x :: x in t ==> Open(Reached(cfg, ops), x.id)
  {
    if ops != [] {
      var front, op := ops[..|ops| - 1], ops[|ops| - 1];
      TicketsAreOpen(cfg, env, front);
      BookOneTickets(env, Reached(cfg, front), op, Reached(cfg, ops), env.clock(|front|),
                     Book(cfg, env, front).tickets);
      forall x | x in Book(cfg, env, ops).tickets
        ensures Open(Reached(cfg, ops), x.id)
      {
        assert HasTicket(Book(cfg, env, ops).tickets, x.id);
      }
    }
  }

  /* ---- what is handed to the recorder ---- */

  /** At most one job is handed over, and it was open. */
  ghost predicate HandsOne(s: Sys, s': Sys) {
    s'.recorded == s.recorded
    || (exists id :: s'.recorded == s.recorded + [id] && Open(s, id))
  }

  lemma EnterHands(cfg: Config, s: Sys, r: nat, running: Job, completed: Job)
    ensures var s' := EnterRecording(cfg, s, r, running, completed);
            s'.recorded == s.recorded || s'.recorded == s.recorded + [completed.id]
    ensures var s' := EnterStaging(cfg, s, r, running, completed);
            s'.recorded == s.recorded || s'.recorded == s.recorded + [completed.id]
  {
  }

  lemma WorkerEndsHands(cfg: Config, s: Sys, r: nat, o: Outcome, now: Time)
    requires Wf(s) && r in s.runs && s.runs[r].phase.Working?
    ensures HandsOne(s, WorkerEndsSpec(cfg, s, r, s.runs[r].running, o, now))
  {
    var running := s.runs[r].running;
    assert RunHeld(s.core.store, s.runs[r]);
    AfterWorkerCounts(s.core, running, o, now, running.id);
    var (c, f) := AfterWorkerSpec(s.core, running, o, now);
    if f.Finished? {
      EnterHands(cfg, s.(core := c), r, running, f.completed);
      assert Open(s, f.completed.id);
    }
  }

  lemma StagingEndsHands(cfg: Config, s: Sys, r: nat, count: Option<int>)
    requires Wf(s) && r in s.runs && s.runs[r].phase.Staging?
    ensures HandsOne(s, StagingEndsSpec(cfg, s, r, s.runs[r].running, s.runs[r].phase.completed, count))
  {
    var completed := s.runs[r].phase.completed;
    assert RunHeld(s.core.store, s.runs[r]);
    EnterHands(cfg, s.(core := AfterStagingSpec(s.core, completed.id, count)), r, s.runs[r].running, completed);
    assert r in StagingRuns(s.runs, completed.id);
    assert Open(s, completed.id);
  }

  lemma RunHands(cfg: Config, s: Sys, r: nat, op: RunOp)
    requires Wf(s)
    ensures HandsOne(s, RunSpec(cfg, s, r, op))
  {
    if r in s.runs && s.runs[r].phase.Working? && op.WorkerEnds? {
      RunIsWorkerEnds(cfg, s, r, op.outcome, op.now);
      WorkerEndsHands(cfg, s, r, op.outcome, op.now);
    } else if r in s.runs && s.runs[r].phase.Staging? && op.StagingEnds? {
      StagingEndsHands(cfg, s, r, op.count);
      assert RunSpec(cfg, s, r, op)
          == StagingEndsSpec(cfg, s, r, s.runs[r].running, s.runs[r].phase.completed, op.count);
    } else {
      QuietRuns(cfg, s, r, op);
    }
  }

  lemma StepHands(cfg: Config, s: Sys, op: Op)
    requires Wf(s)
    ensures HandsOne(s, Apply(cfg, s, op))
  {
    match op
    case OfRun(r, resume) => RunHands(cfg, s, r, resume);
    case Torn(_) =>
    case RecoveryTorn(_, _, _, _) =>
    case _ => CallKeepsStaging(cfg, s, op);
  }

  /* ---- open jobs hold their reservation ---- */

  lemma RecordedCounts(s: Sys, s': Sys, id: Id)
    requires HandsOne(s, s')
    ensures Count(s'.recorded, IsId(id)) == Count(s.recorded, IsId(id)) + if Handed(s, s') == Some(id) then 1 else 0
  {
    if s'.recorded != s.recorded {
      CountAppend(s.recorded, s'.recorded[|s.recorded|], IsId(id));
    }
  }

  /** A closed job opens again only by being revived. */
  lemma ClosedStaysClosed(cfg: Config, s: Sys, op: Op, id: Id)
    requires Wf(s) && id in s.core.store.jobs && !Open(s, id) && !Revives(s, op, id)
    ensures !Open(Apply(cfg, s, op), id)
  {
    LeavesTerminalOnlyByEnqueue(cfg, s, op, id);
    StepTallies(cfg, s, op, id);
    StepHands(cfg, s, op);
    RecordedCounts(s, Apply(cfg, s, op), id);
    assert |StagingRuns(Apply(cfg, s, op).runs, id)| == 0;
  }

  lemma NewIsCreated(cfg: Config, s: Sys, op: Op, id: Id)
    requires Wf(s) && id !in s.core.store.jobs && id in Apply(cfg, s, op).core.store.jobs
    ensures CreatedBy(s, op, Apply(cfg, s, op)) == Some(id)
  {
    StepEffect(cfg, s, op);
    assert NewJobStep(cfg, RightOf(op), s.core.store, Apply(cfg, s, op).core.store.jobs[id]);
  }

  /** A job that was recorded and never revived is closed. */
  lemma RecordedIsClosed(cfg: Config, ops: seq<Op>, id: Id)
    requires ops != [] && Revivals(cfg, ops, id) == 0
    requires Handed(Reached(cfg, ops[..|ops| - 1]), Reached(cfg, ops)) == Some(id)
    ensures !Open(Reached(cfg, ops), id)
  {
    var s, s' := Reached(cfg, ops[..|ops| - 1]), Reached(cfg, ops);
    StepHands(cfg, s, ops[|ops| - 1]);
    RecordedCounts(s, s', id);
    EffectsBounded(cfg, ops, id);
    assert |StagingRuns(s'.runs, id)| == 0;
  }

  /** In every run, a job that was not revived holds a reservation exactly while it is open. */
  lemma {:induction false} ReservedIffOpen(cfg: Config, env: Env, ops: seq<Op>, id: Id)
    requires B.ReadForPreflight(env.meta(id)).Gated? && Revivals(cfg, ops, id) == 0
    ensures HasTicket(Book(cfg, env, ops).tickets, id) <==> Open(Reached(cfg, ops), id)
  {
    if ops != [] {
      var front, op := ops[..|ops| - 1], ops[|ops| - 1];
      var s, s' := Reached(cfg, front), Reached(cfg, ops);
      ReservedIffOpen(cfg, env, front, id);
      TicketsAreOpen(cfg, env, front);
      BookOneTickets(env, s, op, s', env.clock(|front|), Book(cfg, env, front).tickets);
      if Open(s', id) {
        if id !in s.core.store.jobs {
          NewIsCreated(cfg, s, op, id);
        } else if !Open(s, id) {
          ClosedStaysClosed(cfg, s, op, id);
        }
        if Handed(s, s') == Some(id) {
          RecordedIsClosed(cfg, ops, id);
        }
      }
    }
  }

  /* ---- jobs that keep to their estimates ---- */

  /** No readable observed cost is above the estimate of its job. */
  ghost predicate Frugal(env: Env) {
    forall id: Id ::
      var m := env.meta(id);
      B.ReadForPreflight(m).Gated? && m.observed.Amount? ==> m.observed.value <= B.ReadForPreflight(m).estimate
  }

  /** The job that the last operation of the run hands to the recorder was created that day. */
  ghost predicate OnTimeNow(cfg: Config, env: Env, ops: seq<Op>)
    requires ops != []
  {
    var front := ops[..|ops| - 1];
    forall x :: x in Book(cfg, env, front).tickets && Handed(Reached(cfg, front), Reached(cfg, ops)) == Some(x.id)
                ==> env.cal.day(env.clock(|front|)) == env.cal.day(x.charge.at)
  }

  ghost predicate OnTime(cfg: Config, env: Env, ops: seq<Op>) {
    ops != [] ==> OnTimeNow(cfg, env, ops) && OnTime(cfg, env, ops[..|ops| - 1])
  }

  /** No stored job has metadata that the gate refuses. */
  lemma {:induction false} StoredPassed(cfg: Config, env: Env, ops: seq<Op>, id: Id)
    requires GateAnswers(cfg, env, ops) && id in Reached(cfg, ops).core.store.jobs
    ensures !B.ReadForPreflight(env.meta(id)).Error?
  {
    if ops != [] {
      var front, op := ops[..|ops| - 1], ops[|ops| - 1];
      LastBooked(cfg, env, ops);
      if id in Reached(cfg, front).core.store.jobs {
        StoredPassed(cfg, env, front, id);
      } else {
        NewIsCreated(cfg, Reached(cfg, front), op, id);
      }
    }
  }

  lemma HandedWasOpen(s: Sys, s': Sys, id: Id)
    requires HandsOne(s, s') && Handed(s, s') == Some(id)
    ensures Open(s, id)
  {
  }

  lemma RecordableIsGated(m: B.Metadata, now: Time)
    requires B.ReadForRecord(m, now).Some? && !B.ReadForPreflight(m).Error?
    ensures B.ReadForPreflight(m).Gated?
  {
  }

  /** What is recorded of an open job that was never revived comes out of its reservation. */
  lemma RecordedWasReserved(cfg: Config, env: Env, ops: seq<Op>, id: Id, now: Time)
    requires GateAnswers(cfg, env, ops) && Revivals(cfg, ops, id) == 0 && Open(Reached(cfg, ops), id)
    requires B.ReadForRecord(env.meta(id), now).Some?
    ensures HasTicket(Book(cfg, env, ops).tickets, id)
  {
    StoredPassed(cfg, env, ops, id);
    RecordableIsGated(env.meta(id), now);
    ReservedIffOpen(cfg, env, ops, id);
  }

  lemma {:induction false} FairDrops(env: Env, a: seq<B.Step>, drops: seq<B.Step>)
    requires B.FairRun(env.settings, env.cal, env.initial, a) && forall step :: step in drops ==> step.Drop?
    ensures B.FairRun(env.settings, env.cal, env.initial, a + drops)
  {
    if drops == [] {
      assert a + drops == a;
    } else {
      var front := drops[..|drops| - 1];
      FairDrops(env, a, front);
      assert drops[|drops| - 1] in drops;
      B.FairAppend(env.settings, env.cal, env.initial, a + front, drops[|drops| - 1]);
      assert a + front + [drops[|drops| - 1]] == a + drops;
    }
  }

  lemma FairAdmission(env: Env, a: seq<B.Step>, created: Option<Id>, now: Time, t: seq<Ticket>)
    requires B.FairRun(env.settings, env.cal, env.initial, a)
    ensures B.FairRun(env.settings, env.cal, env.initial, a + Admission(env, created, now, t).steps)
  {
    var steps := Admission(env, created, now, t).steps;
    if steps == [] {
      assert a + steps == a;
    } else {
      B.FairAppend(env.settings, env.cal, env.initial, a, steps[0]);
    }
  }

  lemma FairSettlement(env: Env, a: seq<B.Step>, handed: Option<Id>, now: Time, ledger: seq<B.Charge>, t: seq<Ticket>)
    requires B.FairRun(env.settings, env.cal, env.initial, a)
    requires B.Run(env.settings, env.cal, env.initial, a) == B.Sys(ledger, Charges(t)) && Estimates(env, t)
    requires Frugal(env)
    requires handed.Some? && B.ReadForRecord(env.meta(handed.value), now).Some? ==> HasTicket(t, handed.value)
    requires forall x :: x in t && handed == Some(x.id) ==> env.cal.day(now) == env.cal.day(x.charge.at)
    ensures B.FairRun(env.settings, env.cal, env.initial, a + Settlement(env, handed, now, t).steps)
  {
    var steps := Settlement(env, handed, now, t).steps;
    if steps == [] {
      assert a + steps == a;
    } else {
      var i := IndexOf(t, handed.value).value;
      assert t[i] in t && Charges(t)[i] == t[i].charge;
      B.GatedJobsRecord(env.meta(handed.value), now);
      B.FairAppend(env.settings, env.cal, env.initial, a, steps[0]);
    }
  }

  /** The last operation's part is fair: it hands over nothing it creates, and what it records comes
      out of a reservation of the same day. */
  ghost predicate FairHandOver(env: Env, created: Option<Id>, handed: Option<Id>, now: Time, t: seq<Ticket>) {
    handed.Some? ==>
      && created.None?
      && (B.ReadForRecord(env.meta(handed.value), now).Some? ==> HasTicket(t, handed.value))
      && (forall x :: x in t && handed == Some(x.id) ==> env.cal.day(now) == env.cal.day(x.charge.at))
  }

  lemma FairStart(env: Env, a: seq<B.Step>, created: Option<Id>, handed: Option<Id>, now: Time,
                  ledger: seq<B.Charge>, t: seq<Ticket>)
    requires B.FairRun(env.settings, env.cal, env.initial, a)
    requires B.Run(env.settings, env.cal, env.initial, a) == B.Sys(ledger, Charges(t)) && Estimates(env, t)
    requires created.Some? ==> GateAllows(env, ledger, created.value, now)
    requires Frugal(env) && FairHandOver(env, created, handed, now, t)
    ensures var admitted := Admission(env, created, now, t);
            B.FairRun(env.settings, env.cal, env.initial,
                      a + admitted.steps + Settlement(env, handed, now, admitted.tickets).steps)
  {
    var admitted := Admission(env, created, now, t);
    FairAdmission(env, a, created, now, t);
    AdmissionSimulates(env, ledger, created, now, t);
    RunConcat(env, a, admitted.steps);
    if handed.None? {
      assert a + admitted.steps + [] == a + admitted.steps;
    } else {
      FairSettlement(env, a + admitted.steps, handed, now, ledger, admitted.tickets);
    }
  }

  lemma FairOne(env: Env, a: seq<B.Step>, s: Sys, op: Op, s': Sys, now: Time, ledger: seq<B.Charge>, t: seq<Ticket>)
    requires B.FairRun(env.settings, env.cal, env.initial, a)
    requires B.Run(env.settings, env.cal, env.initial, a) == B.Sys(ledger, Charges(t)) && Estimates(env, t)
    requires CreatedBy(s, op, s').Some? ==> GateAllows(env, ledger, CreatedBy(s, op, s').value, now)
    requires Frugal(env) && FairHandOver(env, CreatedBy(s, op, s'), Handed(s, s'), now, t)
    ensures B.FairRun(env.settings, env.cal, env.initial, a + BookOne(env, s, op, s', now, t).steps)
  {
    var admitted := Admission(env, CreatedBy(s, op, s'), now, t);
    var settled := Settlement(env, Handed(s, s'), now, admitted.tickets);
    FairStart(env, a, CreatedBy(s, op, s'), Handed(s, s'), now, ledger, t);
    ReleaseDrops(s', settled.tickets, |settled.tickets|);
    var drops := Release(s', settled.tickets, |settled.tickets|).steps;
    FairDrops(env, a + admitted.steps + settled.steps, drops);
    Regroup(a, admitted.steps, settled.steps, drops);
  }

  lemma Regroup<T>(a: seq<T>, b: seq<T>, c: seq<T>, d: seq<T>)
    ensures a + (b + c + d) == a + b + c + d
  {
  }

  /** No operation both creates a job and hands one over. */
  lemma HandingCreatesNothing(cfg: Config, s: Sys, op: Op)
    requires Wf(s) && Handed(s, Apply(cfg, s, op)).Some?
    ensures CreatedBy(s, op, Apply(cfg, s, op)).None?
  {
    if CallOf(op).Create? && !op.Torn? {
      CallKeepsStaging(cfg, s, op);
    }
  }

  lemma {:induction false} FairBook(cfg: Config, env: Env, ops: seq<Op>)
    requires GateAnswers(cfg, env, ops) && Frugal(env) && OnTime(cfg, env, ops)
    requires forall id: Id :: Revivals(cfg, ops, id) == 0
    ensures B.FairRun(env.settings, env.cal, env.initial, Book(cfg, env, ops).steps)
  {
    if ops != [] {
      var front, op := ops[..|ops| - 1], ops[|ops| - 1];
      var s, s', now, before := Reached(cfg, front), Reached(cfg, ops), env.clock(|front|), Book(cfg, env, front);
      forall id: Id
        ensures Revivals(cfg, front, id) == 0
      {
        assert Revivals(cfg, ops, id) == 0;
      }
      LastBooked(cfg, env, ops);
      FairBook(cfg, env, front);
      ProtocolIsBudgetRun(cfg, env, front);
      var h := Handed(s, s');
      if h.Some? {
        HandingCreatesNothing(cfg, s, op);
        StepHands(cfg, s, op);
        HandedWasOpen(s, s', h.value);
        if B.ReadForRecord(env.meta(h.value), now).Some? {
          RecordedWasReserved(cfg, env, front, h.value, now);
        }
      }
      assert OnTimeNow(cfg, env, ops);
      FairOne(env, before.steps, s, op, s', now, Ledger(cfg, env, front), before.tickets);
    }
  }

  /** In every run that revives no finished job, with jobs that cost at most their estimate and
      are recorded on the day they were created, a bucket's spend of a day or a week stays
      within the cap and the estimates of the other jobs open at its last creation. */
  lemma SpendStaysWithin(cfg: Config, env: Env, ops: seq<Op>, period: Time -> int, b: B.Bucket, n: int, cap: real)
    requires env.cal.Sound() && B.CapOf(env.settings, env.cal, period, b, cap) && GateAnswers(cfg, env, ops)
    requires Frugal(env) && OnTime(cfg, env, ops) && forall id: Id :: Revivals(cfg, ops, id) == 0
    ensures var spent := B.Total(Ledger(cfg, env, ops), B.In(period, b, n));
            var others := OthersAtLastCreation(cfg, env, ops, period, b, n);
            if others.None? then spent == B.Total(env.initial, B.In(period, b, n)) else spent <= cap + others.value
  {
    SpendIsBounded(cfg, env, ops, period, b, n, cap);
    StepsAreNonNegative(cfg, env, ops);
    FairBook(cfg, env, ops);
    B.NoExcess(env.settings, env.cal, env.initial, Book(cfg, env, ops).steps, period, b, n, cap);
  }
}
