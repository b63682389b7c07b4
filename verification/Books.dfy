/** What holds of the payouts after any run: one a grade, for exactly the verdicts that earn one, paid once. */
module Books {
  import opened Wrappers
  import opened Model
  import opened Scores
  import opened Tables
  import opened TaskInvariant
  import opened Invariant
  import opened Payouts
  import opened Rounding
  import opened Ledger
  import Routing
  import Grading
  import Calibration
  import Consensus
  import Ops
  import Service

  /** An approved grade, or one outvoted under a rule that pays the outvoted. */
  predicate Entitled(cfg: Settings, s: State, g: GradeId)
    requires g < |s.grades|
  {
    || DecisionOf(s.reviews, g) == Some(Approve)
    || (DecisionOf(s.reviews, g) == Some(Reject) && cfg.outvotedRule != NoPay
        && s.grades[g].task in s.rounds && s.rounds[s.grades[g].task].status == Adjudicated)
  }

  predicate RowOk(s: State, p: Payout) {
    && p.grade < |s.grades|
    && p.expert == s.grades[p.grade].expert && p.task == s.grades[p.grade].task
    && (p.status == Paid <==> p.period.Some?)
    && (p.period.Some? ==> p.period.value < |s.periods|)
  }

  ghost predicate PayoutsOk(cfg: Settings, s: State) {
    && (forall i | 0 <= i < |s.payouts| :: RowOk(s, s.payouts[i]))
    && DistinctGrades(s.payouts)
    && (forall g | 0 <= g < |s.grades| :: HasPayout(s.payouts, g) <==> Entitled(cfg, s, g))
    && (forall i, j :: 0 <= i < j < |s.periods| ==> s.periods[i] != s.periods[j])
  }

  /** Statuses and periods may differ; the grades the rows pay do not. */
  ghost predicate SameGrades(a: seq<Payout>, b: seq<Payout>) {
    |a| == |b| && forall i | 0 <= i < |a| :: b[i] == a[i].(status := b[i].status, period := b[i].period)
  }

  lemma SameGradesPay(a: seq<Payout>, b: seq<Payout>, g: GradeId)
    requires SameGrades(a, b)
    ensures HasPayout(a, g) <==> HasPayout(b, g)
  {
    if HasPayout(a, g) {
      var i :| 0 <= i < |a| && a[i].grade == g;
      assert b[i].grade == g;
    }
    if HasPayout(b, g) {
      var i :| 0 <= i < |b| && b[i].grade == g;
      assert a[i].grade == g;
    }
  }

  /** Restating rows keeps the books. */
  lemma RestatedOk(cfg: Settings, s: State, s': State)
    requires PayoutsOk(cfg, s) && SameGrades(s.payouts, s'.payouts)
    requires s'.grades == s.grades && s'.periods == s.periods
    requires forall g | 0 <= g < |s.grades| :: Entitled(cfg, s', g) == Entitled(cfg, s, g)
    requires forall i | 0 <= i < |s'.payouts| :: s'.payouts[i].period == s.payouts[i].period
                                                && (s'.payouts[i].status == Paid <==> s.payouts[i].status == Paid)
    ensures PayoutsOk(cfg, s')
  {
    forall g | 0 <= g < |s.grades| ensures HasPayout(s'.payouts, g) == HasPayout(s.payouts, g) {
      SameGradesPay(s.payouts, s'.payouts, g);
    }
    forall i | 0 <= i < |s'.payouts| ensures RowOk(s', s'.payouts[i]) {
      assert RowOk(s, s.payouts[i]);
    }
  }

  // ----- requests that write no payout ---------------------------------------------------------

  predicate Quiet(ev: Service.Event) {
    Creates(ev) || Routes(ev) || ev.Export?
  }

  lemma {:induction false} TickStatus(cfg: Settings, s: State, n: nat)
    requires n <= |s.experts|
    ensures var r := Ops.UpdateAll(cfg, s, n);
            forall x | 0 <= x < |s.experts| ::
              r.experts[x].status == s.experts[x].status && r.experts[x].served == s.experts[x].served
  {
    hide Calibration.Update;
    if n > 0 {
      TickStatus(cfg, s, n - 1);
      UpdateStatus(cfg, Ops.UpdateAll(cfg, s, n - 1), n - 1);
    }
  }

  lemma UpdateStatus(cfg: Settings, s: State, e: ExpertId)
    requires e < |s.experts|
    ensures var r := Calibration.Update(cfg, s, e);
            forall x | 0 <= x < |s.experts| ::
              r.experts[x].status == s.experts[x].status && r.experts[x].served == s.experts[x].served
  {
    hide Calibration.SignalFlags, Windows.Rate;
  }

  /** The tables a quiet request leaves alone. */
  lemma QuietFrame(cfg: Settings, s: State, s': State, now: int, ev: Service.Event)
    requires Linked(s) && Quiet(ev) && Service.Apply(cfg, s, now, ev) == Ok(s')
    ensures s'.payouts == s.payouts && s'.periods == s.periods && s'.grades == s.grades && s'.reviews == s.reviews
    ensures s'.rounds == s.rounds && s'.checks == s.checks && |s.experts| <= |s'.experts|
    ensures forall x | 0 <= x < |s.experts| :: s'.experts[x].status == s.experts[x].status
  {
    hide Calibration.Update, Routing.Eligible, Routing.PickAmong;
    if ev.Tick? {
      TickStatus(cfg, Routing.ReclaimExpired(s, now), |s.experts|);
    }
  }

  lemma QuietBooks(cfg: Settings, s: State, s': State, now: int, ev: Service.Event)
    requires Linked(s) && Quiet(ev) && Service.Apply(cfg, s, now, ev) == Ok(s') && PayoutsOk(cfg, s)
    ensures PayoutsOk(cfg, s') && PayoutsEvolve(cfg, s, s', ev) && StatusEvolves(s, s', ev)
  {
    QuietFrame(cfg, s, s', now, ev);
    forall i | 0 <= i < |s'.payouts| ensures RowOk(s', s'.payouts[i]) {
      assert RowOk(s, s.payouts[i]);
    }
  }

  // ----- pauses, releases and period closes ------------------------------------------------------

  lemma SetStatusBooks(cfg: Settings, s: State, s': State, now: int, ev: Service.Event)
    requires Linked(s) && ev.SetStatus? && Service.Apply(cfg, s, now, ev) == Ok(s') && PayoutsOk(cfg, s)
    ensures PayoutsOk(cfg, s') && PayoutsEvolve(cfg, s, s', ev) && StatusEvolves(s, s', ev)
  {
    RestatedOk(cfg, s, s');
  }

  lemma CloseBooks(cfg: Settings, s: State, s': State, now: int, ev: Service.Event)
    requires Linked(s) && ev.ClosePeriod? && Service.Apply(cfg, s, now, ev) == Ok(s') && PayoutsOk(cfg, s)
    ensures PayoutsOk(cfg, s') && PayoutsEvolve(cfg, s, s', ev) && StatusEvolves(s, s', ev)
  {
    forall g | 0 <= g < |s.grades| ensures HasPayout(s'.payouts, g) == HasPayout(s.payouts, g) {
      SameGradesPay(s.payouts, s'.payouts, g);
    }
    forall i | 0 <= i < |s'.payouts|
      ensures RowOk(s', s'.payouts[i]) && RowEvolves(s.payouts[i], s'.payouts[i], |s.periods|, ev)
    {
      assert RowOk(s, s.payouts[i]);
    }
  }

  // ----- a submission -------------------------------------------------------------------------------

  /** A submission changes no verdict, and adjudicates no round. */
  lemma SubmitEntitles(cfg: Settings, s: State, s': State, clock: int, now: int, ev: Service.Event)
    requires Inv(cfg, s, clock) && ev.Submit? && Service.Apply(cfg, s, now, ev) == Ok(s')
    ensures s.grades <= s'.grades && |s'.grades| == |s.grades| + 1
    ensures forall g | 0 <= g < |s.grades| :: Entitled(cfg, s', g) == Entitled(cfg, s, g)
    ensures !Entitled(cfg, s', |s.grades|)
  {
    hide Grading.Submit, Attention.CheckOf, LeaseOk, VersionOk;
    SubmitRows(cfg, s, s', now, ev.expert, ev.task, ev.scores, ev.given);
    Undecided(s.reviews, |s.grades|);
    var t := ev.task;
    var s1 := Grading.Recorded(s, now, ev.expert, t, ev.scores);
    assert TaskOk(cfg, s.tasks[t], TaskEntries(s, t), RoundOf(s.rounds, t));
    forall g | 0 <= g < |s.grades| ensures Entitled(cfg, s', g) == Entitled(cfg, s, g) {
      var u := s.grades[g].task;
      assert u != t ==> RoundOf(s'.rounds, u) == RoundOf(s.rounds, u);
      assert u == t ==> RoundOf(s.rounds, t) == None;
      assert u == t && RoundOf(s'.rounds, t).Some? ==> RoundOf(s'.rounds, t).value.status != Adjudicated;
    }
  }

  lemma SubmitBooks(cfg: Settings, s: State, s': State, clock: int, now: int, ev: Service.Event)
    requires Inv(cfg, s, clock) && ev.Submit? && Service.Apply(cfg, s, now, ev) == Ok(s') && PayoutsOk(cfg, s)
    ensures PayoutsOk(cfg, s') && PayoutsEvolve(cfg, s, s', ev) && StatusEvolves(s, s', ev)
  {
    hide Grading.Submit, SubmittedCheck, Entitled, TaskOk;
    SubmitEvolves(cfg, s, s', now, ev);
    SubmitEntitles(cfg, s, s', clock, now, ev);
    SubmitGuarded(cfg, s, s', now, ev.expert, ev.task, ev.scores, ev.given);
    assert SameGrades(s.payouts, s'.payouts);
    forall i | 0 <= i < |s'.payouts| ensures RowOk(s', s'.payouts[i]) {
      assert RowOk(s, s.payouts[i]);
    }
    forall g | 0 <= g < |s'.grades| ensures HasPayout(s'.payouts, g) == HasPayout(s.payouts, g) {
      SameGradesPay(s.payouts, s'.payouts, g);
    }
    assert !HasPayout(s.payouts, |s.grades|) by {
      assert forall i | 0 <= i < |s.payouts| :: RowOk(s, s.payouts[i]);
    }
  }

  // ----- rows added at the end -----------------------------------------------------------------------

  lemma AddedPay(a: seq<Payout>, rows: seq<Payout>, g: GradeId)
    ensures HasPayout(a + rows, g) <==> HasPayout(a, g) || HasPayout(rows, g)
  {
    if HasPayout(a, g) {
      var i :| 0 <= i < |a| && a[i].grade == g;
      assert (a + rows)[i].grade == g;
    }
    if HasPayout(rows, g) {
      var i :| 0 <= i < |rows| && rows[i].grade == g;
      assert (a + rows)[|a| + i].grade == g;
    }
    if HasPayout(a + rows, g) {
      var i :| 0 <= i < |a + rows| && (a + rows)[i].grade == g;
      assert if i < |a| then a[i].grade == g else rows[i - |a|].grade == g;
    }
  }

  /** New rows for grades that had none and are entitled now keep the books. */
  lemma AddedOk(cfg: Settings, s: State, s': State, rows: seq<Payout>)
    requires Linked(s) && PayoutsOk(cfg, s)
    requires s'.payouts == s.payouts + rows && s'.grades == s.grades && s'.periods == s.periods
    requires forall k | 0 <= k < |rows| :: FreshRow(cfg, s, rows[k]) && !HasPayout(s.payouts, rows[k].grade)
    requires DistinctGrades(rows)
    requires forall g | 0 <= g < |s.grades| :: Entitled(cfg, s', g) <==> Entitled(cfg, s, g) || HasPayout(rows, g)
    ensures PayoutsOk(cfg, s')
  {
    forall g | 0 <= g < |s.grades| ensures HasPayout(s'.payouts, g) == Entitled(cfg, s', g) {
      AddedPay(s.payouts, rows, g);
    }
    forall i | 0 <= i < |s'.payouts| ensures RowOk(s', s'.payouts[i]) {
      if i < |s.payouts| {
        assert RowOk(s, s.payouts[i]);
      } else {
        assert FreshRow(cfg, s, rows[i - |s.payouts|]);
      }
    }
    forall i, j | 0 <= i < j < |s'.payouts| ensures s'.payouts[i].grade != s'.payouts[j].grade {
      if i < |s.payouts| <= j {
        assert !HasPayout(s.payouts, rows[j - |s.payouts|].grade);
      } else if |s.payouts| <= i {
        assert rows[i - |s.payouts|].grade != rows[j - |s.payouts|].grade;
      }
    }
  }

  lemma AddedEvolves(cfg: Settings, s: State, s': State, rows: seq<Payout>, ev: Service.Event)
    requires Linked(s) && s'.payouts == s.payouts + rows && s'.periods == s.periods && !ev.ClosePeriod?
    requires forall k | 0 <= k < |rows| :: FreshRow(cfg, s, rows[k])
    ensures PayoutsEvolve(cfg, s, s', ev)
  {
    forall i | |s.payouts| <= i < |s'.payouts| ensures FreshRow(cfg, s, s'.payouts[i]) {
      assert s'.payouts[i] == rows[i - |s.payouts|];
    }
  }

  // ----- a review --------------------------------------------------------------------------------------

  /** A grade of an adjudicated round has been decided. */
  lemma AdjudicatedDecided(cfg: Settings, s: State, clock: int, g: GradeId)
    requires Inv(cfg, s, clock) && g < |s.grades| && s.grades[g].task in s.rounds
    requires s.rounds[s.grades[g].task].status == Adjudicated
    ensures DecisionOf(s.reviews, g).Some?
  {
    var t := s.grades[g].task;
    assert TaskOk(cfg, s.tasks[t], TaskEntries(s, t), RoundOf(s.rounds, t));
    var i := EntryPresent(s.grades, s.reviews, g);
    assert TaskEntries(s, t)[i].decision.Some?;
  }

  lemma ReviewEntitles(cfg: Settings, s: State, s': State, clock: int, now: int, g: GradeId, d: Decision)
    requires Inv(cfg, s, clock) && Grading.ReviewGrade(cfg, s, now, g, d) == Ok(s')
    ensures g < |s.grades| && !Entitled(cfg, s, g) && s'.grades == s.grades
    ensures forall h | 0 <= h < |s.grades| ::
              Entitled(cfg, s', h) == if h == g then d == Approve else Entitled(cfg, s, h)
  {
    ReviewRows(cfg, s, s', now, g, d);
    var t := s.grades[g].task;
    if t in s.rounds && s.rounds[t].status == Adjudicated {
      AdjudicatedDecided(cfg, s, clock, g);
    }
    forall h | 0 <= h < |s.grades|
      ensures Entitled(cfg, s', h) == if h == g then d == Approve else Entitled(cfg, s, h)
    {
      DecisionAppend(s.reviews, Review(g, d, now), h);
      var u := s.grades[h].task;
      assert RoundOf(s'.rounds, u).Some? <==> RoundOf(s.rounds, u).Some?;
      assert RoundOf(s.rounds, u).Some? ==> RoundOf(s'.rounds, u).value.status == RoundOf(s.rounds, u).value.status;
    }
  }

  lemma ReviewBooks(cfg: Settings, s: State, s': State, clock: int, now: int, ev: Service.Event)
    requires Inv(cfg, s, clock) && ev.ReviewGrade? && Service.Apply(cfg, s, now, ev) == Ok(s') && PayoutsOk(cfg, s)
    ensures PayoutsOk(cfg, s') && PayoutsEvolve(cfg, s, s', ev) && StatusEvolves(s, s', ev)
  {
    var g, d := ev.grade, ev.decision;
    ReviewEntitles(cfg, s, s', clock, now, g, d);
    ReviewPayouts(cfg, s, s', now, g, d);
    HeadRow(cfg, s, g, true);
    var rows := if d == Approve then EarnedRow(cfg, s, g, true) else [];
    assert d == Approve ==> rows[0].grade == g;
    AddedEvolves(cfg, s, s', rows, ev);
    AddedOk(cfg, s, s', rows);
  }

  // ----- an adjudication -------------------------------------------------------------------------------

  lemma RoundUnpaid(cfg: Settings, s: State, clock: int, t: TaskId)
    requires Inv(cfg, s, clock) && PayoutsOk(cfg, s) && NoneReviewed(TaskEntries(s, t))
    ensures Unpaid(s, TaskEntries(s, t))
    ensures forall i, j :: 0 <= i < j < |TaskEntries(s, t)| ==> TaskEntries(s, t)[i].id != TaskEntries(s, t)[j].id
  {
    var es := TaskEntries(s, t);
    EntryIds(s.grades, s.reviews, t);
    EntryIdsAscend(s.grades, s.reviews, t);
    forall i | 0 <= i < |es|
      ensures es[i].id < |s.grades| && s.grades[es[i].id].task == t && es[i].expert == s.grades[es[i].id].expert
      ensures !HasPayout(s.payouts, es[i].id)
    {
      assert es[i] in es;
      assert !Entitled(cfg, s, es[i].id);
    }
    forall i, j | 0 <= i < j < |es| ensures es[i].expert != es[j].expert {
      assert es[i].id < es[j].id;
    }
  }

  lemma AmongTask(s: State, t: TaskId, g: GradeId)
    requires g < |s.grades|
    ensures Among(TaskEntries(s, t), g) <==> s.grades[g].task == t
  {
    EntryIds(s.grades, s.reviews, t);
    if s.grades[g].task == t {
      var i := EntryPresent(s.grades, s.reviews, g);
      assert TaskEntries(s, t)[i].id == g;
    }
    if Among(TaskEntries(s, t), g) {
      var i :| 0 <= i < |TaskEntries(s, t)| && TaskEntries(s, t)[i].id == g;
      assert TaskEntries(s, t)[i] in TaskEntries(s, t);
    }
  }

  lemma ResolveDecides(s: State, now: int, t: TaskId, delivered: GradeId, g: GradeId)
    requires g < |s.grades|
    ensures DecisionOf(s.reviews + VerdictRows(TaskEntries(s, t), delivered, now), g)
         == if s.grades[g].task == t then Some(if g == delivered then Approve else Reject) else DecisionOf(s.reviews, g)
  {
    var es, rows := TaskEntries(s, t), VerdictRows(TaskEntries(s, t), delivered, now);
    EntryIdsAscend(s.grades, s.reviews, t);
    DecisionAfter(s.reviews, rows, g);
    AmongTask(s, t, g);
    assert forall i | 0 <= i < |es| :: rows[i].grade == es[i].id;
  }

  /** Who becomes entitled by an adjudication: the grades of its task, as the verdict on each says. */
  lemma ResolveEntitles(cfg: Settings, s: State, s': State, clock: int, now: int, t: TaskId, delivered: GradeId)
    requires Inv(cfg, s, clock) && Consensus.Resolve(cfg, s, now, t, delivered) == Ok(s')
    ensures t < |s.tasks| && s'.grades == s.grades
    ensures forall g | 0 <= g < |s.grades| ::
              Entitled(cfg, s', g)
              == if s.grades[g].task == t then Fraction(cfg, g == delivered).Some? else Entitled(cfg, s, g)
  {
    hide VerdictRows, TasksOk;
    ResolveRows(cfg, s, s', now, t, delivered);
    forall g | 0 <= g < |s.grades|
      ensures Entitled(cfg, s', g)
              == if s.grades[g].task == t then Fraction(cfg, g == delivered).Some? else Entitled(cfg, s, g)
    {
      ResolveDecides(s, now, t, delivered, g);
    }
  }

  /** The payouts of an adjudication, all computed from the state before it. */
  lemma ResolveAdds(cfg: Settings, s: State, s': State, clock: int, now: int, t: TaskId, delivered: GradeId)
    requires Inv(cfg, s, clock) && PayoutsOk(cfg, s) && Consensus.Resolve(cfg, s, now, t, delivered) == Ok(s')
    ensures var es := TaskEntries(s, t);
            && Unpaid(s, es) && (forall i, j :: 0 <= i < j < |es| ==> es[i].id != es[j].id)
            && s'.payouts == s.payouts + EarnedRows(cfg, s, es, delivered)
            && (forall i | 0 <= i < |es| ::
                  EarnedRow(cfg, s, es[i].id, es[i].id == delivered) == []
                  <==> Fraction(cfg, es[i].id == delivered) == None)
    ensures s'.periods == s.periods && |s'.experts| == |s.experts|
    ensures forall x | 0 <= x < |s.experts| :: s'.experts[x].status == s.experts[x].status
  {
    hide EarnedRow, EarnedRows, Calibration.Update, TasksOk, PayoutsOk;
    ResolveTasks(cfg, s, s', clock, now, t, delivered);
    var es := TaskEntries(s, t);
    RoundUnpaid(cfg, s, clock, t);
    EntryIds(s.grades, s.reviews, t);
    var s1 := Consensus.ResolveAll(cfg, s, now, es, delivered).value;
    ResolvePayouts(cfg, s, s, s1, now, es, delivered);
  }

  lemma ResolvePays(cfg: Settings, s: State, es: seq<Entry>, delivered: GradeId, g: GradeId)
    requires Linked(s) && Unpaid(s, es) && (forall i, j :: 0 <= i < j < |es| ==> es[i].id != es[j].id)
    requires forall i | 0 <= i < |es| ::
               EarnedRow(cfg, s, es[i].id, es[i].id == delivered) == []
               <==> Fraction(cfg, es[i].id == delivered) == None
    ensures HasPayout(EarnedRows(cfg, s, es, delivered), g) <==> Among(es, g) && Fraction(cfg, g == delivered).Some?
  {
    EarnedRowsOf(cfg, s, es, delivered);
    var rows := EarnedRows(cfg, s, es, delivered);
    if Among(es, g) && Fraction(cfg, g == delivered).Some? {
      var i :| 0 <= i < |es| && es[i].id == g;
      EarnedRowsPay(cfg, s, es, delivered, i);
    }
    if HasPayout(rows, g) {
      var k :| 0 <= k < |rows| && rows[k].grade == g;
      NoneEarned(cfg, s, es, delivered, g);
    }
  }

  lemma {:induction false} NoneEarned(cfg: Settings, s: State, es: seq<Entry>, delivered: GradeId, g: GradeId)
    requires Linked(s) && forall i | 0 <= i < |es| :: es[i].id < |s.grades|
    ensures Fraction(cfg, g == delivered) == None ==> !HasPayout(EarnedRows(cfg, s, es, delivered), g)
  {
    if es != [] {
      NoneEarned(cfg, s, es[1..], delivered, g);
      HeadRow(cfg, s, es[0].id, es[0].id == delivered);
      AddedPay(EarnedRow(cfg, s, es[0].id, es[0].id == delivered), EarnedRows(cfg, s, es[1..], delivered), g);
    }
  }

  lemma ResolveBooks(cfg: Settings, s: State, s': State, clock: int, now: int, ev: Service.Event)
    requires Inv(cfg, s, clock) && ev.Resolve? && Service.Apply(cfg, s, now, ev) == Ok(s') && PayoutsOk(cfg, s)
    ensures PayoutsOk(cfg, s') && PayoutsEvolve(cfg, s, s', ev) && StatusEvolves(s, s', ev)
  {
    var t, delivered := ev.task, ev.delivered;
    var es := TaskEntries(s, t);
    ResolveAdds(cfg, s, s', clock, now, t, delivered);
    ResolveEntitles(cfg, s, s', clock, now, t, delivered);
    EarnedRowsOf(cfg, s, es, delivered);
    var rows := EarnedRows(cfg, s, es, delivered);
    forall g | 0 <= g < |s.grades|
      ensures Entitled(cfg, s', g) <==> Entitled(cfg, s, g) || HasPayout(rows, g)
      ensures Among(es, g) ==> !HasPayout(s.payouts, g)
    {
      ResolvePays(cfg, s, es, delivered, g);
      AmongTask(s, t, g);
    }
    AddedEvolves(cfg, s, s', rows, ev);
    AddedOk(cfg, s, s', rows);
  }

  /**
   * Payouts of different rows are for different (task, expert) pairs: their uniqueness constraint never aborts a
   * request.
   */
  lemma PairsDistinct(cfg: Settings, s: State, clock: int, i: nat, j: nat)
    requires Inv(cfg, s, clock) && PayoutsOk(cfg, s) && i < j < |s.payouts|
    ensures s.payouts[i].task != s.payouts[j].task || s.payouts[i].expert != s.payouts[j].expert
  {
    hide TasksOk, Entitled;
    assert RowOk(s, s.payouts[i]) && RowOk(s, s.payouts[j]);
    assert s.payouts[i].grade != s.payouts[j].grade;
  }

  // ----- nothing is paid twice, and adjudication never meets a reviewed grade ---------------------------

  /** An accepted review meets no payout of its grade: the branch that returns an existing one is never taken. */
  lemma ReviewUnpaid(cfg: Settings, s: State, clock: int, now: int, g: GradeId, d: Decision)
    requires Inv(cfg, s, clock) && PayoutsOk(cfg, s) && Grading.ReviewGrade(cfg, s, now, g, d).Ok?
    ensures !HasPayout(s.payouts, g)
  {
    hide TasksOk, Grading.ReviewGrade, Entitled;
    ReviewEntitles(cfg, s, Grading.ReviewGrade(cfg, s, now, g, d).value, clock, now, g, d);
  }

  /** Nor does an accepted adjudication, for any grade of its task. */
  lemma AdjudicationUnpaid(cfg: Settings, s: State, clock: int, now: int, t: TaskId, delivered: GradeId)
    requires Inv(cfg, s, clock) && PayoutsOk(cfg, s) && Consensus.Resolve(cfg, s, now, t, delivered).Ok?
    ensures forall g | 0 <= g < |s.grades| && s.grades[g].task == t :: !HasPayout(s.payouts, g)
  {
    hide TasksOk, Consensus.Resolve, PayoutsOk;
    ResolveTasks(cfg, s, Consensus.Resolve(cfg, s, now, t, delivered).value, clock, now, t, delivered);
    RoundUnpaid(cfg, s, clock, t);
    forall g | 0 <= g < |s.grades| && s.grades[g].task == t ensures !HasPayout(s.payouts, g) {
      AmongTask(s, t, g);
      var i :| 0 <= i < |TaskEntries(s, t)| && TaskEntries(s, t)[i].id == g;
    }
  }

  /** The entries of a round that has not been reviewed: each verdict is the first on its grade. */
  ghost predicate Undecideds(s: State, es: seq<Entry>) {
    && (forall i | 0 <= i < |es| :: es[i].id < |s.grades| && DecisionOf(s.reviews, es[i].id) == None)
    && (forall i, j :: 0 <= i < j < |es| ==> es[i].id != es[j].id)
  }

  lemma TurnUndecided(cfg: Settings, s: State, s1: State, now: int, es: seq<Entry>, delivered: GradeId)
    requires Linked(s) && es != [] && Undecideds(s, es)
    requires Consensus.ResolveOne(cfg, s, now, es[0].id, delivered) == Ok(s1)
    ensures Undecideds(s1, es[1..])
  {
    hide Calibration.SignalFlags, Consensus.RoundPayout, DecisionOf;
    var r := Review(es[0].id, if es[0].id == delivered then Approve else Reject, now);
    forall i | 0 <= i < |es[1..]|
      ensures es[1..][i] == es[i + 1] && DecisionOf(s1.reviews, es[i + 1].id) == None
    {
      DecisionAppend(s.reviews, r, es[i + 1].id);
    }
  }

  lemma {:induction false} LoopNeverAborts(cfg: Settings, s: State, now: int, es: seq<Entry>, delivered: GradeId)
    requires Linked(s) && (forall e <- es :: e.id < |s.grades|) && Undecideds(s, es)
    ensures Consensus.ResolveAll(cfg, s, now, es, delivered) != Err(Integrity)
    decreases |es|
  {
    hide Calibration.Update, Linked, DecisionOf, Undecideds;
    if es != [] {
      TurnErrors(cfg, s, now, es[0], es, delivered);
      var r := Consensus.ResolveOne(cfg, s, now, es[0].id, delivered);
      if r.Ok? {
        TurnUndecided(cfg, s, r.value, now, es, delivered);
        LoopNeverAborts(cfg, r.value, now, es[1..], delivered);
      }
    }
  }

  lemma TurnErrors(cfg: Settings, s: State, now: int, e: Entry, es: seq<Entry>, delivered: GradeId)
    requires Linked(s) && es != [] && e == es[0] && Undecideds(s, es)
    ensures Consensus.ResolveOne(cfg, s, now, e.id, delivered) != Err(Integrity)
  {
    hide Calibration.SignalFlags, RoundHalfEven;
  }

  /** In every reachable state an adjudication is refused only by its own guards or for want of a rate. */
  lemma ResolveNeverAborts(cfg: Settings, s: State, clock: int, now: int, t: TaskId, delivered: GradeId)
    requires Inv(cfg, s, clock)
    ensures Consensus.Resolve(cfg, s, now, t, delivered) != Err(Integrity)
  {
    hide TaskOk, Consensus.ResolveAll, LeaseOk;
    EntryIds(s.grades, s.reviews, t);
    if t in s.rounds && t < |s.tasks| && s.rounds[t].status == Adjudicating {
      AdjudicatingUndecided(cfg, s, clock, t);
      LoopNeverAborts(cfg, s, now, TaskEntries(s, t), delivered);
    }
  }

  lemma AdjudicatingUndecided(cfg: Settings, s: State, clock: int, t: TaskId)
    requires Inv(cfg, s, clock) && t in s.rounds && s.rounds[t].status == Adjudicating
    ensures Undecideds(s, TaskEntries(s, t))
  {
    var es := TaskEntries(s, t);
    assert TaskOk(cfg, s.tasks[t], es, RoundOf(s.rounds, t));
    EntryIds(s.grades, s.reviews, t);
    EntryIdsAscend(s.grades, s.reviews, t);
    forall i | 0 <= i < |es| ensures es[i].id < |s.grades| && DecisionOf(s.reviews, es[i].id) == None {
      assert es[i] in es && es[i].decision == None;
    }
  }

  // ----- the order of the adjudication loop --------------------------------------------------------------

  /** A verdict on g earns nothing or has a rate to be paid at. */
  predicate Payable(cfg: Settings, s: State, g: GradeId, chosen: bool)
    requires Linked(s) && g < |s.grades|
  {
    Fraction(cfg, chosen) == None || RateFor(s.cards, s.experts[s.grades[g].expert], s.tasks[s.grades[g].task].kind).Ok?
  }

  lemma TurnOk(cfg: Settings, s: State, s1: State, now: int, es: seq<Entry>, delivered: GradeId)
    requires Linked(s) && Linked(s1) && es != [] && SameFor(s, s1, es) && Unpaid(s1, es) && Undecideds(s1, es)
    ensures es[0].id < |s.grades|
    ensures Consensus.ResolveOne(cfg, s1, now, es[0].id, delivered).Ok? <==>
              Payable(cfg, s, es[0].id, es[0].id == delivered)
  {
    hide Calibration.Update, RoundHalfEven, NewPayout;
    assert !HasPayout(s1.payouts, es[0].id);
  }

  /** The loop succeeds exactly when every verdict is payable in the state before it. */
  lemma {:induction false} LoopOk(cfg: Settings, s: State, s1: State, now: int, es: seq<Entry>, delivered: GradeId)
    requires Linked(s) && Linked(s1) && SameFor(s, s1, es) && Unpaid(s1, es) && Undecideds(s1, es)
    requires forall e <- es :: e.id < |s1.grades|
    ensures Consensus.ResolveAll(cfg, s1, now, es, delivered).Ok? <==>
              forall i | 0 <= i < |es| :: Payable(cfg, s, es[i].id, es[i].id == delivered)
    decreases |es|
  {
    hide Payable, Consensus.ResolveOne, Undecideds, Linked;
    if es != [] {
      TurnOk(cfg, s, s1, now, es, delivered);
      var turn := Consensus.ResolveOne(cfg, s1, now, es[0].id, delivered);
      if turn.Ok? {
        LoopStep(cfg, s, s1, turn.value, now, es, delivered);
        LoopOk(cfg, s, turn.value, now, es[1..], delivered);
        assert forall i | 0 < i < |es| :: es[1..][i - 1] == es[i];
      }
    }
  }

  lemma LoopStep(cfg: Settings, s: State, s1: State, s2: State, now: int, es: seq<Entry>, delivered: GradeId)
    requires Linked(s) && Linked(s1) && es != [] && SameFor(s, s1, es) && Unpaid(s1, es) && Undecideds(s1, es)
    requires Consensus.ResolveOne(cfg, s1, now, es[0].id, delivered) == Ok(s2)
    ensures Linked(s2) && SameFor(s, s2, es[1..]) && Unpaid(s2, es[1..]) && Undecideds(s2, es[1..])
    ensures s2.grades == s1.grades
  {
    hide Calibration.Update, Consensus.RoundPayout, DecisionOf;
    ResolveOneRow(cfg, s, s1, s2, now, es, delivered);
    TurnUndecided(cfg, s1, s2, now, es, delivered);
    StillUnpaid(cfg, s, s1, s2, es, es[0].id == delivered);
  }

  lemma Repeated(a: seq<Entry>, i: nat, j: nat)
    requires i < j < |a| && a[i] == a[j]
    ensures multiset(a)[a[i]] >= 2
  {
    assert a == a[..j] + [a[j]] + a[j + 1..];
    assert a[i] in a[..j];
  }

  lemma {:induction false} Once(s: State, a: seq<Entry>, e: Entry)
    requires Unpaid(s, a)
    ensures multiset(a)[e] <= 1
  {
    if a != [] {
      Once(s, a[..|a| - 1], e);
      assert a == a[..|a| - 1] + [a[|a| - 1]];
      forall i | 0 <= i < |a| - 1 ensures a[i] != a[|a| - 1] {
        assert a[i].expert != a[|a| - 1].expert;
      }
    }
  }

  /** A permutation of distinct, unpaid and undecided entries is one too. */
  lemma PermutedEntries(s: State, a: seq<Entry>, b: seq<Entry>)
    requires Unpaid(s, a) && Undecideds(s, a) && multiset(a) == multiset(b)
    ensures Unpaid(s, b) && Undecideds(s, b)
  {
    forall i | 0 <= i < |b|
      ensures b[i].id < |s.grades| && b[i].expert == s.grades[b[i].id].expert && !HasPayout(s.payouts, b[i].id)
      ensures DecisionOf(s.reviews, b[i].id) == None
    {
      assert b[i] in multiset(a);
      var k :| 0 <= k < |a| && a[k] == b[i];
    }
    forall i, j | 0 <= i < j < |b| ensures b[i].expert != b[j].expert && b[i].id != b[j].id {
      assert b[i] in multiset(a) && b[j] in multiset(a);
      var k :| 0 <= k < |a| && a[k] == b[i];
      var l :| 0 <= l < |a| && a[l] == b[j];
      if k == l {
        Repeated(b, i, j);
        Once(s, a, b[i]);
      }
    }
  }

  /**
   * Adjudicating the same grades in another order succeeds if and only if the first order does, and then the payouts
   * are the same rows.
   */
  lemma LoopOrderIrrelevant(cfg: Settings, s: State, now: int, a: seq<Entry>, b: seq<Entry>, delivered: GradeId)
    requires Linked(s) && Unpaid(s, a) && Undecideds(s, a) && multiset(a) == multiset(b)
    ensures (forall e <- a :: e.id < |s.grades|) && (forall e <- b :: e.id < |s.grades|)
    ensures var x := Consensus.ResolveAll(cfg, s, now, a, delivered);
            var y := Consensus.ResolveAll(cfg, s, now, b, delivered);
            && (x.Ok? <==> y.Ok?)
            && (x.Ok? ==> multiset(x.value.payouts) == multiset(y.value.payouts))
  {
    hide Payable, Consensus.ResolveAll, HasPayout, DecisionOf;
    PermutedEntries(s, a, b);
    LoopOk(cfg, s, s, now, a, delivered);
    LoopOk(cfg, s, s, now, b, delivered);
    if forall i | 0 <= i < |a| :: Payable(cfg, s, a[i].id, a[i].id == delivered) {
      SamePayable(cfg, s, a, b, delivered);
    }
    if forall i | 0 <= i < |b| :: Payable(cfg, s, b[i].id, b[i].id == delivered) {
      SamePayable(cfg, s, b, a, delivered);
    }
    var x, y := Consensus.ResolveAll(cfg, s, now, a, delivered), Consensus.ResolveAll(cfg, s, now, b, delivered);
    if x.Ok? && y.Ok? {
      ResolvePayouts(cfg, s, s, x.value, now, a, delivered);
      ResolvePayouts(cfg, s, s, y.value, now, b, delivered);
      EarnedRowsPermuted(cfg, s, a, b, delivered);
    }
  }

  lemma SamePayable(cfg: Settings, s: State, a: seq<Entry>, b: seq<Entry>, delivered: GradeId)
    requires Linked(s) && Unpaid(s, a) && Unpaid(s, b) && multiset(a) == multiset(b)
    requires forall i | 0 <= i < |a| :: Payable(cfg, s, a[i].id, a[i].id == delivered)
    ensures forall i | 0 <= i < |b| :: Payable(cfg, s, b[i].id, b[i].id == delivered)
  {
    hide Payable, HasPayout;
    forall i | 0 <= i < |b| ensures Payable(cfg, s, b[i].id, b[i].id == delivered) {
      assert b[i] in multiset(a);
      var k :| 0 <= k < |a| && a[k] == b[i];
    }
  }

  /** In a reachable state an adjudicating round's grades, in whatever order they are visited, are paid the same. */
  lemma AdjudicationOrderIrrelevant(cfg: Settings, s: State, clock: int, now: int, t: TaskId, es: seq<Entry>,
                                    delivered: GradeId)
    requires Inv(cfg, s, clock) && PayoutsOk(cfg, s) && t in s.rounds && s.rounds[t].status == Adjudicating
    requires multiset(es) == multiset(TaskEntries(s, t))
    ensures (forall e <- TaskEntries(s, t) :: e.id < |s.grades|) && (forall e <- es :: e.id < |s.grades|)
    ensures var x := Consensus.ResolveAll(cfg, s, now, TaskEntries(s, t), delivered);
            var y := Consensus.ResolveAll(cfg, s, now, es, delivered);
            && (x.Ok? <==> y.Ok?)
            && (x.Ok? ==> multiset(x.value.payouts) == multiset(y.value.payouts))
  {
    hide TaskOk, Consensus.ResolveAll, Entries;
    AdjudicatingUndecided(cfg, s, clock, t);
    UnreviewedRound(cfg, s, clock, t);
    RoundUnpaid(cfg, s, clock, t);
    LoopOrderIrrelevant(cfg, s, now, TaskEntries(s, t), es, delivered);
  }

  lemma UnreviewedRound(cfg: Settings, s: State, clock: int, t: TaskId)
    requires Inv(cfg, s, clock) && t in s.rounds && s.rounds[t].status == Adjudicating
    ensures NoneReviewed(TaskEntries(s, t))
  {
    assert TaskOk(cfg, s.tasks[t], TaskEntries(s, t), RoundOf(s.rounds, t));
  }

  // ----- every request -----------------------------------------------------------------------------------

  lemma AcceptedBooks(cfg: Settings, s: State, s': State, clock: int, now: int, ev: Service.Event)
    requires Inv(cfg, s, clock) && PayoutsOk(cfg, s) && Service.Apply(cfg, s, now, ev) == Ok(s')
    ensures PayoutsOk(cfg, s') && PayoutsEvolve(cfg, s, s', ev) && StatusEvolves(s, s', ev)
  {
    if Quiet(ev) {
      QuietBooks(cfg, s, s', now, ev);
    } else if ev.SetStatus? {
      SetStatusBooks(cfg, s, s', now, ev);
    } else if ev.ClosePeriod? {
      CloseBooks(cfg, s, s', now, ev);
    } else if ev.Submit? {
      SubmitBooks(cfg, s, s', clock, now, ev);
    } else if ev.ReviewGrade? {
      ReviewBooks(cfg, s, s', clock, now, ev);
    } else {
      ResolveBooks(cfg, s, s', clock, now, ev);
    }
  }
}
