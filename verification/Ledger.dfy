/** How one request changes the payout table: who is paid, how much, and when a row may change. */
module Ledger {
  import opened Wrappers
  import opened Model
  import opened Scores
  import opened Tables
  import opened Invariant
  import opened Payouts
  import opened Rounding
  import Grading
  import Attention
  import Calibration
  import Consensus
  import Service

  /** The share of the card rate a verdict earns. */
  function Fraction(cfg: Settings, chosen: bool): (r: Option<real>) {
    if chosen then Some(1.0)
    else match cfg.outvotedRule
      case NoPay => None
      case Full => Some(1.0)
      case Partial => Some(cfg.outvotedRate)
  }

  /** The rows a verdict on the grade g writes, from the experts, tasks and rates before it: none or one. */
  function EarnedRow(cfg: Settings, s: State, g: GradeId, chosen: bool): (r: seq<Payout>)
    requires Linked(s) && g < |s.grades|
  {
    var rate := RateFor(s.cards, s.experts[s.grades[g].expert], s.tasks[s.grades[g].task].kind);
    if Fraction(cfg, chosen) == None || rate.Err? then []
    else [NewPayout(s, g, rate.value, Fraction(cfg, chosen).value)]
  }

  // ----- one request, seen from the payout table -----------------------------------------

  /** A row written by this request, computed from the tables as they were before it. */
  ghost predicate FreshRow(cfg: Settings, s: State, p: Payout)
    requires Linked(s)
  {
    p.grade < |s.grades| && exists chosen :: EarnedRow(cfg, s, p.grade, chosen) == [p]
  }

  /** An old row: only its status and period move, and a row in a period never does. */
  ghost predicate RowEvolves(p: Payout, p': Payout, next: PeriodId, ev: Service.Event) {
    || p' == p
    || (p.status == Pending && p' == p.(status := Withheld) && ev.Submit? && ev.expert == p.expert)
    || (p.status == Withheld && p' == p.(status := Pending) && ev == Service.SetStatus(p.expert, Active))
    || (p.status == Pending && p.period == None && ev.ClosePeriod? && p' == p.(status := Paid, period := Some(next)))
  }

  ghost predicate PayoutsEvolve(cfg: Settings, s: State, s': State, ev: Service.Event)
    requires Linked(s)
  {
    && |s.payouts| <= |s'.payouts|
    && (forall i | 0 <= i < |s.payouts| :: RowEvolves(s.payouts[i], s'.payouts[i], |s.periods|, ev))
    && (forall i | |s.payouts| <= i < |s'.payouts| :: FreshRow(cfg, s, s'.payouts[i]))
    && s'.periods == s.periods + (if ev.ClosePeriod? then [ev.name] else [])
    && (ev.ClosePeriod? ==> ev.name !in s.periods)
  }

  /** An expert's status moves only by an administrator or by the guard on one of their own submissions. */
  ghost predicate StatusEvolves(s: State, s': State, ev: Service.Event) {
    && |s.experts| <= |s'.experts|
    && (forall e | 0 <= e < |s.experts| && s'.experts[e].status != s.experts[e].status ::
          (ev.SetStatus? && ev.expert == e) || (ev.Submit? && ev.expert == e && s'.experts[e].status == Paused))
  }

  // ----- the adjudication loop reads no row it has written ----------------------------------

  /** As far as the payouts of these grades go, the two states are the same. */
  ghost predicate SameFor(s: State, s1: State, es: seq<Entry>) {
    && s1.grades == s.grades && s1.tasks == s.tasks && s1.cards == s.cards && |s1.experts| == |s.experts|
    && (forall e | 0 <= e < |s.experts| :: s1.experts[e].status == s.experts[e].status)
    && (forall i | 0 <= i < |es| :: es[i].expert < |s.experts| && s1.experts[es[i].expert] == s.experts[es[i].expert])
  }

  /** Entries of grades in the table, all by different experts and not paid yet. */
  ghost predicate Unpaid(s: State, es: seq<Entry>) {
    && (forall i | 0 <= i < |es| :: es[i].id < |s.grades| && es[i].expert == s.grades[es[i].id].expert
                                    && !HasPayout(s.payouts, es[i].id))
    && (forall i, j :: 0 <= i < j < |es| ==> es[i].expert != es[j].expert)
  }

  /** The rows of a whole adjudication, all computed from the state before it. */
  function EarnedRows(cfg: Settings, s: State, es: seq<Entry>, delivered: GradeId): (r: seq<Payout>)
    requires Linked(s) && forall i | 0 <= i < |es| :: es[i].id < |s.grades|
  {
    if es == [] then [] else
      EarnedRow(cfg, s, es[0].id, es[0].id == delivered) + EarnedRows(cfg, s, es[1..], delivered)
  }

  lemma UpdateSame(cfg: Settings, s: State, s1: State, es: seq<Entry>)
    requires es != [] && s1.grades == s.grades && SameFor(s, s1, es) && es[0].expert < |s1.experts|
    requires forall i, j :: 0 <= i < j < |es| ==> es[i].expert != es[j].expert
    ensures SameFor(s, Calibration.Update(cfg, s1, es[0].expert), es[1..])
  {
    forall i | 0 <= i < |es[1..]| ensures es[1..][i] == es[i + 1] && es[i + 1].expert != es[0].expert {
    }
  }

  lemma RoundPayoutRow(cfg: Settings, s: State, s': State, g: GradeId, chosen: bool)
    requires Linked(s) && g < |s.grades| && !HasPayout(s.payouts, g)
    requires Consensus.RoundPayout(cfg, s, g, chosen) == Ok(s')
    ensures s' == s.(payouts := s.payouts + EarnedRow(cfg, s, g, chosen))
    ensures EarnedRow(cfg, s, g, chosen) == [] <==> Fraction(cfg, chosen) == None
  {
    assert s.payouts + [] == s.payouts;
  }

  lemma SameRow(cfg: Settings, s: State, s1: State, g: GradeId, chosen: bool)
    requires Linked(s) && Linked(s1) && g < |s.grades| && s1.grades == s.grades && s1.tasks == s.tasks
    requires s1.cards == s.cards
    requires s1.experts[s1.grades[g].expert] == s.experts[s.grades[g].expert]
    ensures EarnedRow(cfg, s1, g, chosen) == EarnedRow(cfg, s, g, chosen)
  {
  }

  lemma ResolveOneRow(cfg: Settings, s: State, s1: State, s2: State, now: int, es: seq<Entry>, delivered: GradeId)
    requires Linked(s) && Linked(s1) && es != [] && SameFor(s, s1, es) && Unpaid(s1, es)
    requires Consensus.ResolveOne(cfg, s1, now, es[0].id, delivered) == Ok(s2)
    ensures s2.payouts == s1.payouts + EarnedRow(cfg, s, es[0].id, es[0].id == delivered)
    ensures EarnedRow(cfg, s, es[0].id, es[0].id == delivered) == [] <==> Fraction(cfg, es[0].id == delivered) == None
    ensures SameFor(s, s2, es[1..])
  {
    hide Calibration.Update, Consensus.RoundPayout, DecisionOf, EarnedRow, Consensus.OnlyVerdicts;
    var g, chosen := es[0].id, es[0].id == delivered;
    var reviewed := s1.(reviews := s1.reviews + [Review(g, if chosen then Approve else Reject, now)]);
    var s3 := Consensus.RoundPayout(cfg, reviewed, g, chosen).value;
    RoundPayoutRow(cfg, reviewed, s3, g, chosen);
    SameRow(cfg, s, reviewed, g, chosen);
    UpdateSame(cfg, s, s3, es);
  }

  lemma StillUnpaid(cfg: Settings, s: State, s1: State, s2: State, es: seq<Entry>, chosen: bool)
    requires es != [] && Unpaid(s1, es) && Linked(s) && es[0].id < |s.grades| && s2.grades == s1.grades
    requires s2.payouts == s1.payouts + EarnedRow(cfg, s, es[0].id, chosen)
    requires forall i, j :: 0 <= i < j < |es| ==> es[i].id != es[j].id
    ensures Unpaid(s2, es[1..])
  {
    forall i | 0 <= i < |es[1..]| ensures !HasPayout(s2.payouts, es[1..][i].id) {
      assert es[1..][i] == es[i + 1];
      assert !HasPayout(s1.payouts, es[i + 1].id);
    }
  }

  lemma Concat<T>(a: seq<T>, b: seq<T>, c: seq<T>)
    ensures (a + b) + c == a + (b + c)
  {
  }

  /** The first turn of the adjudication loop, and what is left for the rest of it. */
  lemma ResolveTurn(cfg: Settings, s: State, s1: State, s': State, now: int, es: seq<Entry>, delivered: GradeId)
    returns (s2: State)
    requires Linked(s) && Linked(s1) && es != [] && SameFor(s, s1, es) && Unpaid(s1, es)
    requires forall e <- es :: e.id < |s1.grades|
    requires forall i, j :: 0 <= i < j < |es| ==> es[i].id != es[j].id
    requires Consensus.ResolveAll(cfg, s1, now, es, delivered) == Ok(s')
    ensures Linked(s2) && s2.grades == s1.grades && SameFor(s, s2, es[1..]) && Unpaid(s2, es[1..])
    ensures Consensus.ResolveAll(cfg, s2, now, es[1..], delivered) == Ok(s')
    ensures s2.payouts == s1.payouts + EarnedRow(cfg, s, es[0].id, es[0].id == delivered)
    ensures EarnedRow(cfg, s, es[0].id, es[0].id == delivered) == [] <==> Fraction(cfg, es[0].id == delivered) == None
  {
    s2 := Consensus.ResolveOne(cfg, s1, now, es[0].id, delivered).value;
    ResolveOneRow(cfg, s, s1, s2, now, es, delivered);
    StillUnpaid(cfg, s, s1, s2, es, es[0].id == delivered);
  }

  /** An adjudication pays what the state before it says, whatever its own loop has changed meanwhile. */
  lemma {:induction false} ResolvePayouts(cfg: Settings, s: State, s1: State, s': State, now: int, es: seq<Entry>,
        delivered: GradeId)
    requires Linked(s) && Linked(s1) && SameFor(s, s1, es) && Unpaid(s1, es) && (forall e <- es :: e.id < |s1.grades|)
    requires forall i, j :: 0 <= i < j < |es| ==> es[i].id != es[j].id
    requires Consensus.ResolveAll(cfg, s1, now, es, delivered) == Ok(s')
    ensures s'.payouts == s1.payouts + EarnedRows(cfg, s, es, delivered)
    ensures forall i | 0 <= i < |es| ::
              EarnedRow(cfg, s, es[i].id, es[i].id == delivered) == [] <==> Fraction(cfg, es[i].id == delivered) == None
    ensures SameFor(s, s', [])
    decreases |es|
  {
    hide EarnedRow, Calibration.Update, Linked;
    if es == [] {
      assert s1.payouts + [] == s1.payouts;
    } else {
      var s2 := ResolveTurn(cfg, s, s1, s', now, es, delivered);
      ResolvePayouts(cfg, s, s2, s', now, es[1..], delivered);
      forall i | 0 < i < |es| ensures es[1..][i - 1] == es[i] {
      }
      Concat(s1.payouts, EarnedRow(cfg, s, es[0].id, es[0].id == delivered), EarnedRows(cfg, s, es[1..], delivered));
    }
  }

  /** Verdicts in any order earn the same rows. */
  lemma {:induction false} EarnedRowsPermuted(cfg: Settings, s: State, a: seq<Entry>, b: seq<Entry>, delivered: GradeId)
    requires Linked(s) && multiset(a) == multiset(b)
    requires (forall i | 0 <= i < |a| :: a[i].id < |s.grades|) && (forall i | 0 <= i < |b| :: b[i].id < |s.grades|)
    ensures multiset(EarnedRows(cfg, s, a, delivered)) == multiset(EarnedRows(cfg, s, b, delivered))
  {
    assert |multiset(a)| == |a| && |multiset(b)| == |b|;
    if a != [] {
      var i := MatchHead(a, b);
      EarnedRowsRemove(cfg, s, b, i, delivered);
      EarnedRowsPermuted(cfg, s, a[1..], b[..i] + b[i + 1..], delivered);
    }
  }

  lemma {:induction false} EarnedRowsRemove(cfg: Settings, s: State, es: seq<Entry>, i: nat, delivered: GradeId)
    requires Linked(s) && i < |es| && forall j | 0 <= j < |es| :: es[j].id < |s.grades|
    ensures multiset(EarnedRows(cfg, s, es, delivered))
         == multiset(EarnedRow(cfg, s, es[i].id, es[i].id == delivered))
          + multiset(EarnedRows(cfg, s, es[..i] + es[i + 1..], delivered))
  {
    var rest := es[..i] + es[i + 1..];
    if i == 0 {
      assert rest == es[1..];
    } else {
      var tail := es[1..];
      EarnedRowsRemove(cfg, s, tail, i - 1, delivered);
      assert rest[1..] == tail[..i - 1] + tail[i..] && rest[0] == es[0] && tail[i - 1] == es[i];
    }
  }

  // ----- every accepted request -------------------------------------------------------------

  /** The guard runs on this check and pauses its expert. */
  predicate Fires(cfg: Settings, s: State, check: Check)
    requires check.expert < |s.experts|
  {
    !check.passed && Attention.Trips(cfg, s.checks + [check], check.expert) && s.experts[check.expert].status != Paused
  }

  /** What a submission does to statuses and payouts: nothing, unless the guard pauses the expert. */
  ghost predicate Guarded(cfg: Settings, s: State, s': State, e: ExpertId, check: Option<Check>)
    requires e < |s.experts| && (check.Some? ==> check.value.expert == e)
  {
    var fires := check.Some? && Fires(cfg, s, check.value);
    && |s'.experts| == |s.experts| && s'.cards == s.cards && s'.periods == s.periods && s'.served == s.served
    && s'.checks == s.checks + (if check.Some? then [check.value] else [])
    && (forall x | 0 <= x < |s.experts| && x != e :: s'.experts[x] == s.experts[x])
    && s'.experts[e].status == (if fires then Paused else s.experts[e].status)
    && s'.experts[e].served == s.experts[e].served && s'.experts[e].tags == s.experts[e].tags
    && s'.payouts == (if fires then Restate(s.payouts, e, Pending, Withheld) else s.payouts)
  }

  lemma CheckedGuard(cfg: Settings, s: State, t: TaskId, g: GradeId)
    requires t < |s.tasks| && g < |s.grades| && s.grades[g].task == t && s.grades[g].expert < |s.experts|
    ensures Guarded(cfg, s, Grading.Checked(cfg, s, t, g), s.grades[g].expert,
                    Attention.CheckOf(cfg, s.tasks[t], g, s.grades[g]))
  {
    var e, check := s.grades[g].expert, Attention.CheckOf(cfg, s.tasks[t], g, s.grades[g]);
    if check.Some? {
      var s1 := s.(checks := s.checks + [check.value]);
      assert Fires(cfg, s, check.value) <==>
             !check.value.passed && Attention.Enforce(cfg, s1, e).experts[e].status != s1.experts[e].status;
    }
  }

  /** The attention check the submission of this grade leaves. */
  function SubmittedCheck(cfg: Settings, s: State, now: int, e: ExpertId, t: TaskId,
        scores: ScoreSheet): (r: Option<Check>)
    requires Linked(s) && t < |s.tasks|
    requires Grading.ValidScores(s.rubrics[Grading.ScoredRubric(s.tasks[t])].criteria, scores)
    ensures r.Some? ==> r.value.expert == e && r.value.at == now && r.value.task == t && r.value.grade == |s.grades|
  {
    Attention.CheckOf(cfg, s.tasks[t], |s.grades|, Grading.NewGrade(s, now, e, t, scores))
  }

  lemma SubmitGuarded(cfg: Settings, s: State, s': State, now: int, e: ExpertId, t: TaskId, scores: ScoreSheet,
                      given: Option<RubricId>)
    requires Linked(s) && e < |s.experts| && Grading.Submit(cfg, s, now, e, t, scores, given) == Ok(s')
    ensures t < |s.tasks| && Grading.ValidScores(s.rubrics[Grading.ScoredRubric(s.tasks[t])].criteria, scores)
    ensures Guarded(cfg, s, s', e, SubmittedCheck(cfg, s, now, e, t, scores))
  {
    hide Consensus.Evaluate, Consensus.NewRound, Grading.Checked, Grading.ValidScores, Entries, Attention.Trips,
      Restate, UnrejectedOf, Scores.Weighted;
    var s1 := Grading.Recorded(s, now, e, t, scores);
    var r2 := if s1.tasks[t].status == Submitted then Consensus.Evaluate(cfg, s1, t) else Ok(s1);
    EvaluateRows(cfg, s, s1, r2.value, t, e);
    CheckedGuard(cfg, r2.value, t, |s.grades|);
  }

  lemma SubmitEvolves(cfg: Settings, s: State, s': State, now: int, ev: Service.Event)
    requires Linked(s) && ev.Submit? && Service.Apply(cfg, s, now, ev) == Ok(s')
    ensures PayoutsEvolve(cfg, s, s', ev) && StatusEvolves(s, s', ev)
  {
    SubmitGuarded(cfg, s, s', now, ev.expert, ev.task, ev.scores, ev.given);
  }

  /** A review pays on approval and touches no status. */
  ghost predicate Reviewed(cfg: Settings, s: State, s': State, g: GradeId, d: Decision)
    requires Linked(s) && g < |s.grades|
  {
    && |s'.experts| == |s.experts| && s'.periods == s.periods && s'.served == s.served
    && (forall x | 0 <= x < |s.experts| ::
          s'.experts[x].status == s.experts[x].status && s'.experts[x].served == s.experts[x].served)
    && s'.payouts == s.payouts + (if d == Approve then EarnedRow(cfg, s, g, true) else [])
    && (d == Approve ==> |s'.payouts| == |s.payouts| + 1)
  }

  lemma ReviewPayouts(cfg: Settings, s: State, s': State, now: int, g: GradeId, d: Decision)
    requires Linked(s) && Grading.ReviewGrade(cfg, s, now, g, d) == Ok(s') && !HasPayout(s.payouts, g)
    ensures g < |s.grades| && Reviewed(cfg, s, s', g, d)
  {
    hide Calibration.SignalFlags, Calibration.Target, Calibration.ScoreOf, TaskEntries, Consensus.Redelivered,
      Grading.ReviewedRow, DecisionOf, RoundHalfEven;
    assert s.payouts + [] == s.payouts;
  }

  ghost predicate Among(es: seq<Entry>, g: GradeId) {
    exists i | 0 <= i < |es| :: es[i].id == g
  }

  lemma AmongTail(es: seq<Entry>, g: GradeId)
    requires es != []
    ensures Among(es, g) <==> es[0].id == g || Among(es[1..], g)
  {
    if Among(es[1..], g) {
      var i :| 0 <= i < |es[1..]| && es[1..][i].id == g;
      assert es[i + 1].id == g;
    }
    if Among(es, g) && es[0].id != g {
      var i :| 0 <= i < |es| && es[i].id == g;
      assert es[1..][i - 1].id == g;
    }
  }

  ghost predicate DistinctGrades(rows: seq<Payout>) {
    forall j, k :: 0 <= j < k < |rows| ==> rows[j].grade != rows[k].grade
  }

  lemma HeadRow(cfg: Settings, s: State, g: GradeId, chosen: bool)
    requires Linked(s) && g < |s.grades|
    ensures forall k | 0 <= k < |EarnedRow(cfg, s, g, chosen)| ::
              k == 0 && EarnedRow(cfg, s, g, chosen)[k].grade == g && FreshRow(cfg, s, EarnedRow(cfg, s, g, chosen)[k])
  {
    hide RoundHalfEven;
    var rows := EarnedRow(cfg, s, g, chosen);
    if rows != [] {
      assert rows == [rows[0]] && EarnedRow(cfg, s, rows[0].grade, chosen) == [rows[0]];
    }
  }

  /** Which grades the rows of an adjudication pay, and that each is written by its verdict. */
  lemma {:induction false} EarnedRowsOf(cfg: Settings, s: State, es: seq<Entry>, delivered: GradeId)
    requires Linked(s) && (forall i | 0 <= i < |es| :: es[i].id < |s.grades|)
    requires forall i, j :: 0 <= i < j < |es| ==> es[i].id != es[j].id
    ensures var rows := EarnedRows(cfg, s, es, delivered);
            && (forall k | 0 <= k < |rows| :: FreshRow(cfg, s, rows[k]) && Among(es, rows[k].grade))
            && DistinctGrades(rows)
  {
    if es != [] {
      EarnedRowsOf(cfg, s, es[1..], delivered);
      var head, rest := EarnedRow(cfg, s, es[0].id, es[0].id == delivered), EarnedRows(cfg, s, es[1..], delivered);
      HeadRow(cfg, s, es[0].id, es[0].id == delivered);
      forall k | 0 <= k < |rest| ensures Among(es, rest[k].grade) && rest[k].grade != es[0].id {
        AmongTail(es, rest[k].grade);
        var i :| 0 <= i < |es[1..]| && es[1..][i].id == rest[k].grade;
      }
      assert head != [] ==> Among(es, es[0].id);
    }
  }

  lemma {:induction false} EarnedRowsPay(cfg: Settings, s: State, es: seq<Entry>, delivered: GradeId, i: nat)
    requires Linked(s) && (forall i | 0 <= i < |es| :: es[i].id < |s.grades|) && i < |es|
    ensures EarnedRow(cfg, s, es[i].id, es[i].id == delivered) != [] ==>
              HasPayout(EarnedRows(cfg, s, es, delivered), es[i].id)
  {
    var head, rest := EarnedRow(cfg, s, es[0].id, es[0].id == delivered), EarnedRows(cfg, s, es[1..], delivered);
    var rows := EarnedRows(cfg, s, es, delivered);
    if i == 0 {
      assert head != [] ==> rows[0].grade == es[0].id;
    } else {
      EarnedRowsPay(cfg, s, es[1..], delivered, i - 1);
      if HasPayout(rest, es[i].id) {
        var k :| 0 <= k < |rest| && rest[k].grade == es[i].id;
        assert rows[|head| + k].grade == es[i].id;
      }
    }
  }
}
