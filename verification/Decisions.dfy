/** What a review and an adjudication write and when they are refused, in terms of the rows: verdicts, tasks, pay. */
module Decisions {
  import opened Wrappers
  import opened Model
  import opened Scores
  import opened Tables
  import opened Invariant
  import opened TaskInvariant
  import opened Ledger
  import opened Books
  import opened Rounding
  import Calibration
  import Consensus
  import Grading
  import Payouts

  // ----- what a verdict pays ------------------------------------------------------------------------------

  /** The expert's own rate, else that of their tier for the type of the task, else the default of their tier. */
  ghost predicate RateIs(s: State, g: GradeId, cents: int)
    requires Linked(s) && g < |s.grades|
  {
    var x, kind := s.experts[s.grades[g].expert], s.tasks[s.grades[g].task].kind;
    match x.rate
    case Some(own) => cents == own
    case None =>
      if (x.tier, kind) in s.cards then cents == s.cards[(x.tier, kind)]
      else (x.tier, "default") in s.cards && cents == s.cards[(x.tier, "default")]
  }

  ghost predicate Unrated(s: State, g: GradeId)
    requires Linked(s) && g < |s.grades|
  {
    var x, kind := s.experts[s.grades[g].expert], s.tasks[s.grades[g].task].kind;
    x.rate == None && (x.tier, kind) !in s.cards && (x.tier, "default") !in s.cards
  }

  lemma RatesAre(s: State, g: GradeId)
    requires Linked(s) && g < |s.grades|
    ensures var r := Payouts.RateFor(s.cards, s.experts[s.grades[g].expert], s.tasks[s.grades[g].task].kind);
            && (r.Ok? ==> RateIs(s, g, r.value) && !Unrated(s, g))
            && (r.Err? ==> r == Err(Service(422)) && Unrated(s, g))
  {
  }

  /** An unbilled row for that share of the rate, rounded to the nearest cent, ties to even. */
  ghost predicate PaidFor(s: State, g: GradeId, share: real, p: Payout)
    requires Linked(s) && g < |s.grades|
  {
    var x, task := s.experts[s.grades[g].expert], s.tasks[s.grades[g].task];
    && p.grade == g && p.expert == s.grades[g].expert && p.task == s.grades[g].task
    && p.tier == x.tier && p.kind == task.kind && p.period == None
    && p.status == (if x.status == Paused then Withheld else Pending)
    && exists cents :: RateIs(s, g, cents) && NearestEven(p.amount, ShareOf(cents, share))
  }

  function ShareOf(cents: int, share: real): (x: real) {
    share * cents as real
  }

  /** The delivered grade earns the whole rate, an outvoted one nothing, the whole rate or the share configured. */
  ghost predicate Earns(cfg: Settings, chosen: bool) {
    chosen || cfg.outvotedRule != NoPay
  }

  ghost function Share(cfg: Settings, chosen: bool): (x: real) {
    if !chosen && cfg.outvotedRule == Partial then cfg.outvotedRate else 1.0
  }

  lemma VerdictPays(cfg: Settings, s: State, g: GradeId, chosen: bool)
    requires Linked(s) && g < |s.grades|
    ensures var rows := EarnedRow(cfg, s, g, chosen);
            if !Earns(cfg, chosen) || Unrated(s, g) then rows == []
            else |rows| == 1 && PaidFor(s, g, Share(cfg, chosen), rows[0])
  {
    hide RoundHalfEven, NearestEven, RateIs, Unrated, Payouts.RateFor;
    RatesAre(s, g);
    var r := Payouts.RateFor(s.cards, s.experts[s.grades[g].expert], s.tasks[s.grades[g].task].kind);
    if Earns(cfg, chosen) && r.Ok? {
      var share := Share(cfg, chosen);
      assert ShareOf(r.value, share) == Payouts.Exact(r.value, share);
      RoundIsNearest(RoundHalfEven(ShareOf(r.value, share)), ShareOf(r.value, share));
      assert RateIs(s, g, r.value);
    }
  }

  // ----- a review -----------------------------------------------------------------------------------------

  ghost predicate HasReview(s: State, g: GradeId) {
    exists i :: 0 <= i < |s.reviews| && s.reviews[i].grade == g
  }

  /** Grades of a task with several graders wait until it is complete and adjudicated. */
  ghost predicate Waits(task: Task) {
    !task.golden && task.required >= 2 && (task.received < task.required || task.status == Adjudication)
  }

  /** A review is refused for exactly these reasons, in this order. */
  lemma ReviewRefused(cfg: Settings, s: State, clock: int, now: int, g: GradeId, d: Decision)
    requires Inv(cfg, s, clock) && PayoutsOk(cfg, s)
    ensures var r := Grading.ReviewGrade(cfg, s, now, g, d);
            if g >= |s.grades| then r == Err(Service(404))
            else if HasReview(s, g) || Waits(s.tasks[s.grades[g].task]) then r == Err(Service(409))
            else if d == Approve && Unrated(s, g) then r == Err(Service(422))
            else r.Ok?
  {
    hide Calibration.SignalFlags, Calibration.Update, Consensus.Redeliver, TasksOk, Payouts.RateFor, RoundHalfEven,
      Unrated, Payouts.NewPayout;
    if g < |s.grades| {
      Undecided(s.reviews, g);
      RatesAre(s, g);
      assert !HasReview(s, g) ==> !HasPayout(s.payouts, g) by {
        UnreviewedUnpaid(cfg, s, clock, g);
      }
    }
  }

  lemma UnreviewedUnpaid(cfg: Settings, s: State, clock: int, g: GradeId)
    requires Inv(cfg, s, clock) && PayoutsOk(cfg, s) && g < |s.grades|
    ensures !HasReview(s, g) ==> !HasPayout(s.payouts, g)
  {
    hide TasksOk;
    Undecided(s.reviews, g);
    assert HasPayout(s.payouts, g) <==> Entitled(cfg, s, g);
  }

  /** The task of a reviewed grade: approved, sent back for another grader, rejected, or as it was. */
  ghost predicate ReviewedTask(was: Task, task: Task, d: Decision) {
    && task == was.(status := task.status, received := task.received)
    && if was.golden then task == was
       else if d == Approve then task.status == Approved && task.received == was.received
       else if was.required == 1 then task.status == Queued && task.received == was.received - 1
       else task.received == was.received && task.status == (if was.status == Approved then Approved else Rejected)
  }

  /** One review more; an approval pays the grade at the whole rate, and nothing else is paid. */
  lemma ReviewWrites(cfg: Settings, s: State, s': State, clock: int, now: int, g: GradeId, d: Decision)
    requires Inv(cfg, s, clock) && PayoutsOk(cfg, s) && Grading.ReviewGrade(cfg, s, now, g, d) == Ok(s')
    ensures g < |s.grades| && s'.reviews == s.reviews + [Review(g, d, now)]
    ensures |s'.tasks| == |s.tasks| && ReviewedTask(s.tasks[s.grades[g].task], s'.tasks[s.grades[g].task], d)
    ensures forall u | 0 <= u < |s.tasks| && u != s.grades[g].task :: s'.tasks[u] == s.tasks[u]
    ensures d == Reject ==> s'.payouts == s.payouts
    ensures d == Approve ==>
              && |s'.payouts| == |s.payouts| + 1 && s'.payouts[..|s.payouts|] == s.payouts
              && PaidFor(s, g, 1.0, s'.payouts[|s.payouts|])
    ensures s' == s.(reviews := s'.reviews, tasks := s'.tasks, rounds := s'.rounds, payouts := s'.payouts,
                     experts := s'.experts, moves := s'.moves)
  {
    hide TasksOk, Grading.ReviewGrade, Entitled, PaidFor, EarnedRow;
    ReviewRows(cfg, s, s', now, g, d);
    ReviewUnpaid(cfg, s, clock, now, g, d);
    ReviewPayouts(cfg, s, s', now, g, d);
    VerdictPays(cfg, s, g, true);
    OneGraderReceived(cfg, s, clock, g);
    ReviewFrame(cfg, s, s', now, g, d);
  }

  lemma ReviewFrame(cfg: Settings, s: State, s': State, now: int, g: GradeId, d: Decision)
    requires Linked(s) && Grading.ReviewGrade(cfg, s, now, g, d) == Ok(s')
    ensures s' == s.(reviews := s'.reviews, tasks := s'.tasks, rounds := s'.rounds, payouts := s'.payouts,
                     experts := s'.experts, moves := s'.moves)
  {
    hide Calibration.SignalFlags, Calibration.Target, Calibration.ScoreOf, TaskEntries, Consensus.Redelivered,
      Grading.ReviewedRow, DecisionOf, RoundHalfEven;
  }

  /** A task that takes one grade has the one under review. */
  lemma OneGraderReceived(cfg: Settings, s: State, clock: int, g: GradeId)
    requires Inv(cfg, s, clock) && g < |s.grades| && DecisionOf(s.reviews, g) == None
    ensures var task := s.tasks[s.grades[g].task]; !task.golden && task.required == 1 ==> task.received >= 1
  {
    var t := s.grades[g].task;
    var i := EntryPresent(s.grades, s.reviews, g);
    var es := TaskEntries(s, t);
    assert TaskOk(cfg, s.tasks[t], es, RoundOf(s.rounds, t));
    assert es[i] in es;
  }

  // ----- an adjudication ----------------------------------------------------------------------------------

  /** An adjudication is refused for exactly these reasons, in this order. */
  lemma ResolveRefused(cfg: Settings, s: State, clock: int, now: int, t: TaskId, delivered: GradeId)
    requires Inv(cfg, s, clock) && PayoutsOk(cfg, s)
    ensures var r := Consensus.Resolve(cfg, s, now, t, delivered);
            if t !in s.rounds then r == Err(Service(404))
            else if s.rounds[t].status != Adjudicating then r == Err(Service(409))
            else if delivered >= |s.grades| || s.grades[delivered].task != t then r == Err(Service(422))
            else if exists g | 0 <= g < |s.grades| ::
                      s.grades[g].task == t && Earns(cfg, g == delivered) && Unrated(s, g)
            then r == Err(Service(422))
            else r.Ok?
  {
    hide TaskOk, Consensus.ResolveAll, LeaseOk, Entries, PayoutsOk, Unrated, Earns, Payable;
    var es := TaskEntries(s, t);
    EntryIds(s.grades, s.reviews, t);
    if t in s.rounds && s.rounds[t].status == Adjudicating {
      AdjudicatingUndecided(cfg, s, clock, t);
      UnreviewedRound(cfg, s, clock, t);
      RoundUnpaid(cfg, s, clock, t);
      LoopOk(cfg, s, s, now, es, delivered);
      AllPayable(cfg, s, t, delivered);
      TheseGrades(s, t, delivered);
      if Consensus.ResolveAll(cfg, s, now, es, delivered).Err? {
        LoopErrors(cfg, s, now, es, delivered);
      }
    }
  }

  lemma TheseGrades(s: State, t: TaskId, g: GradeId)
    ensures (exists e <- TaskEntries(s, t) :: e.id == g) <==> g < |s.grades| && s.grades[g].task == t
  {
    EntryIds(s.grades, s.reviews, t);
    if g < |s.grades| && s.grades[g].task == t {
      var i := EntryPresent(s.grades, s.reviews, g);
      assert TaskEntries(s, t)[i] in TaskEntries(s, t);
    }
  }

  lemma AllPayable(cfg: Settings, s: State, t: TaskId, delivered: GradeId)
    requires Linked(s) && forall e <- TaskEntries(s, t) :: e.id < |s.grades|
    ensures (forall i | 0 <= i < |TaskEntries(s, t)| ::
               Payable(cfg, s, TaskEntries(s, t)[i].id, TaskEntries(s, t)[i].id == delivered))
       <==> !exists g | 0 <= g < |s.grades| :: s.grades[g].task == t && Earns(cfg, g == delivered) && Unrated(s, g)
  {
    hide Entries, Payouts.RateFor, Unrated;
    var es := TaskEntries(s, t);
    EntryIds(s.grades, s.reviews, t);
    forall i | 0 <= i < |es|
      ensures es[i].id < |s.grades| && s.grades[es[i].id].task == t
      ensures Payable(cfg, s, es[i].id, es[i].id == delivered)
         <==> !(Earns(cfg, es[i].id == delivered) && Unrated(s, es[i].id)) {
      assert es[i] in es;
      RatesAre(s, es[i].id);
    }
    forall g | 0 <= g < |s.grades| && s.grades[g].task == t ensures exists i :: 0 <= i < |es| && es[i].id == g {
      var i := EntryPresent(s.grades, s.reviews, g);
    }
  }

  lemma {:induction false} LoopErrors(cfg: Settings, s: State, now: int, es: seq<Entry>, delivered: GradeId)
    requires Linked(s) && (forall e <- es :: e.id < |s.grades|) && Undecideds(s, es)
    requires Consensus.ResolveAll(cfg, s, now, es, delivered).Err?
    ensures Consensus.ResolveAll(cfg, s, now, es, delivered) == Err(Service(422))
    decreases |es|
  {
    hide Calibration.Update, Linked, DecisionOf, Undecideds;
    if es != [] {
      TurnErrs(cfg, s, now, es, delivered);
      var r := Consensus.ResolveOne(cfg, s, now, es[0].id, delivered);
      if r.Ok? {
        TurnUndecided(cfg, s, r.value, now, es, delivered);
        LoopErrors(cfg, r.value, now, es[1..], delivered);
      }
    }
  }

  lemma TurnErrs(cfg: Settings, s: State, now: int, es: seq<Entry>, delivered: GradeId)
    requires Linked(s) && es != [] && Undecideds(s, es)
    ensures es[0].id < |s.grades|
    ensures var r := Consensus.ResolveOne(cfg, s, now, es[0].id, delivered); r.Err? ==> r == Err(Service(422))
  {
    hide Calibration.SignalFlags, RoundHalfEven;
  }

  /** The row of a grade an adjudication pays. */
  ghost predicate PaidVerdict(cfg: Settings, s: State, t: TaskId, delivered: GradeId, p: Payout)
    requires Linked(s)
  {
    && p.grade < |s.grades| && s.grades[p.grade].task == t && Earns(cfg, p.grade == delivered)
    && PaidFor(s, p.grade, Share(cfg, p.grade == delivered), p)
  }

  lemma {:induction false} VerdictsPay(cfg: Settings, s: State, t: TaskId, es: seq<Entry>, delivered: GradeId)
    requires Linked(s) && forall i | 0 <= i < |es| :: es[i].id < |s.grades| && s.grades[es[i].id].task == t
    ensures forall p <- EarnedRows(cfg, s, es, delivered) :: PaidVerdict(cfg, s, t, delivered, p)
  {
    hide PaidFor, EarnedRow, Earns, Share;
    if es != [] {
      VerdictsPay(cfg, s, t, es[1..], delivered);
      VerdictPays(cfg, s, es[0].id, es[0].id == delivered);
      PaidGrade(s);
    }
  }

  lemma PaidGrade(s: State)
    requires Linked(s)
    ensures forall g, share, p | 0 <= g < |s.grades| && PaidFor(s, g, share, p) :: p.grade == g
  {
  }

  /** Every grade of the task has one new review, approving it exactly if it is the delivered one. */
  ghost predicate VerdictsGiven(s: State, s': State, now: int, t: TaskId, delivered: GradeId) {
    && s.reviews <= s'.reviews
    && (forall i | |s.reviews| <= i < |s'.reviews| ::
          var r := s'.reviews[i];
          && r.grade < |s.grades| && s.grades[r.grade].task == t && r.at == now
          && (r.decision == Approve <==> r.grade == delivered))
    && (forall g | 0 <= g < |s.grades| && s.grades[g].task == t ::
          exists i :: |s.reviews| <= i < |s'.reviews| && s'.reviews[i].grade == g)
  }

  lemma VerdictsAre(s: State, s': State, now: int, t: TaskId, delivered: GradeId)
    requires s'.reviews == s.reviews + VerdictRows(TaskEntries(s, t), delivered, now)
    ensures VerdictsGiven(s, s', now, t, delivered)
  {
    hide Entries;
    var es := TaskEntries(s, t);
    EntryIds(s.grades, s.reviews, t);
    assert forall i | 0 <= i < |es| :: es[i] in es;
    forall g | 0 <= g < |s.grades| && s.grades[g].task == t
      ensures exists i :: |s.reviews| <= i < |s'.reviews| && s'.reviews[i].grade == g
    {
      var i := EntryPresent(s.grades, s.reviews, g);
      assert s'.reviews[|s.reviews| + i].grade == g;
    }
  }

  /** Each grade of the task that earns something has one new payout for it, and there is no other. */
  ghost predicate VerdictsPaid(cfg: Settings, s: State, s': State, t: TaskId, delivered: GradeId)
    requires Linked(s)
  {
    && s.payouts <= s'.payouts && DistinctGrades(s'.payouts[|s.payouts|..])
    && (forall p <- s'.payouts[|s.payouts|..] :: PaidVerdict(cfg, s, t, delivered, p))
    && (forall g | 0 <= g < |s.grades| && s.grades[g].task == t && Earns(cfg, g == delivered) ::
          HasPayout(s'.payouts[|s.payouts|..], g))
  }

  lemma VerdictsPaidAre(cfg: Settings, s: State, s': State, clock: int, now: int, t: TaskId, delivered: GradeId)
    requires Inv(cfg, s, clock) && PayoutsOk(cfg, s) && Consensus.Resolve(cfg, s, now, t, delivered) == Ok(s')
    ensures VerdictsPaid(cfg, s, s', t, delivered)
  {
    hide TasksOk, Consensus.Resolve, PayoutsOk, EarnedRow, PaidVerdict, Entries, Fraction, Unpaid;
    ResolveAdds(cfg, s, s', clock, now, t, delivered);
    var es := TaskEntries(s, t);
    EntryIds(s.grades, s.reviews, t);
    assert forall i | 0 <= i < |es| :: es[i] in es;
    VerdictsPay(cfg, s, t, es, delivered);
    var rows := EarnedRows(cfg, s, es, delivered);
    assert s'.payouts[|s.payouts|..] == rows;
    EarnedRowsOf(cfg, s, es, delivered);
    forall g | 0 <= g < |s.grades| && s.grades[g].task == t && Earns(cfg, g == delivered) ensures HasPayout(rows, g) {
      var i := EntryPresent(s.grades, s.reviews, g);
      EarningFraction(cfg, g == delivered);
      ResolvePays(cfg, s, es, delivered, g);
    }
  }

  /** The task is approved and its round delivers the grade named; verdicts and pay follow from that. */
  lemma ResolveWrites(cfg: Settings, s: State, s': State, clock: int, now: int, t: TaskId, delivered: GradeId)
    requires Inv(cfg, s, clock) && PayoutsOk(cfg, s) && Consensus.Resolve(cfg, s, now, t, delivered) == Ok(s')
    ensures t < |s.tasks| && delivered < |s.grades| && s.grades[delivered].task == t
    ensures s'.tasks == s.tasks[t := s.tasks[t].(status := Approved)]
    ensures t in s.rounds && t in s'.rounds
    ensures s'.rounds == s.rounds[t := s'.rounds[t]]
    ensures s'.rounds[t] == s.rounds[t].(status := Adjudicated, delivered := Some(delivered))
    ensures VerdictsGiven(s, s', now, t, delivered) && VerdictsPaid(cfg, s, s', t, delivered)
  {
    hide TasksOk, Consensus.Resolve, PayoutsOk, VerdictsGiven, VerdictsPaid;
    ResolveRows(cfg, s, s', now, t, delivered);
    VerdictsAre(s, s', now, t, delivered);
    VerdictsPaidAre(cfg, s, s', clock, now, t, delivered);
    var i :| 0 <= i < |TaskEntries(s, t)| && TaskEntries(s, t)[i].id == delivered;
    assert TaskEntries(s, t)[i] in TaskEntries(s, t);
    TheseGrades(s, t, delivered);
  }

  lemma EarningFraction(cfg: Settings, chosen: bool)
    ensures Fraction(cfg, chosen).Some? <==> Earns(cfg, chosen)
  {
  }
}
