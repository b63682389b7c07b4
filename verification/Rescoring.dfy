/** Which requests rescore whom: a review its author, a check its expert, an adjudication every grader, a tick all. */
module Rescoring {
  import opened Wrappers
  import opened Model
  import opened Scores
  import opened Tables
  import opened Invariant
  import opened Calibration
  import opened Tiers
  import opened Agreement
  import Attention
  import Consensus
  import Grading
  import Ops
  import Payouts
  import Routing

  /** The row of an expert rescored by the signals of a state. */
  function Refreshed(cfg: Settings, x: Expert, s: State, e: ExpertId): (r: Expert) {
    Recalibrated(cfg, x, SignalFlags(s, e, cfg.calibrationWindow))
  }

  lemma SameSignals(cfg: Settings, s: State, s': State, e: ExpertId)
    requires s'.grades == s.grades && s'.reviews == s.reviews && s'.checks == s.checks
    ensures SignalFlags(s', e, cfg.calibrationWindow) == SignalFlags(s, e, cfg.calibrationWindow)
  {
  }

  lemma UpdateRefreshes(cfg: Settings, s: State, e: ExpertId)
    requires e < |s.experts|
    ensures Update(cfg, s, e).experts[e] == Refreshed(cfg, s.experts[e], Update(cfg, s, e), e)
  {
    hide SignalFlags;
    SameSignals(cfg, s, Update(cfg, s, e), e);
  }

  // ----- a review -----------------------------------------------------------------------------------------

  lemma ReviewRefreshes(cfg: Settings, s: State, s': State, now: int, g: GradeId, d: Decision)
    requires Linked(s) && Grading.ReviewGrade(cfg, s, now, g, d) == Ok(s')
    ensures g < |s.grades| && |s'.experts| == |s.experts|
    ensures var e := s.grades[g].expert; s'.experts[e] == Refreshed(cfg, s.experts[e], s', e)
  {
    hide Update, Refreshed, Consensus.Redelivered, Grading.ReviewedRow, DecisionOf, Payouts.NewPayout, TaskEntries;
    var e, t := s.grades[g].expert, s.grades[g].task;
    var s1 := s.(reviews := s.reviews + [Review(g, d, now)]);
    var s2 := if d == Approve then Payouts.CreateForGrade(s1, g, 1.0).value else s1;
    var s3 := s2.(tasks := s2.tasks[t := Grading.ReviewedRow(s2.tasks[t], d)]);
    var s4 := if d == Reject then Consensus.Redeliver(s3, t, g) else s3;
    assert s' == Update(cfg, s4, e) && s4.experts == s.experts;
    UpdateRefreshes(cfg, s4, e);
  }

  /** An accepted review rescores the author of the grade by what is on record after it. */
  lemma ReviewRescores(cfg: Settings, s: State, s': State, now: int, g: GradeId, d: Decision, since: int)
    requires Linked(s) && Grading.ReviewGrade(cfg, s, now, g, d) == Ok(s') && g < |s.grades|
    requires TimesOrdered(s') && WindowSince(cfg, s', s.grades[g].expert, since)
    ensures var e := s.grades[g].expert;
            e < |s'.experts| && Rescored(cfg, s.experts[e].tier, s'.experts[e], s', e, since)
  {
    hide Grading.ReviewGrade, TimesOrdered, WindowSince, Rescored, Recalibrated;
    var e := s.grades[g].expert;
    ReviewRefreshes(cfg, s, s', now, g, d);
    RecalibratedCounts(cfg, s.experts[e], s', e, since);
  }

  // ----- a submission -------------------------------------------------------------------------------------

  lemma CheckRefreshes(cfg: Settings, s: State, t: TaskId, g: GradeId)
    requires t < |s.tasks| && g < |s.grades| && s.grades[g].expert < |s.experts|
    requires Attention.CheckOf(cfg, s.tasks[t], g, s.grades[g]).Some?
    ensures var e, s' := s.grades[g].expert, Grading.Checked(cfg, s, t, g);
            s'.experts[e] == Refreshed(cfg, s.experts[e].(status := s'.experts[e].status), s', e)
  {
    hide Update, Refreshed, Attention.CheckOf, Attention.Trips;
    var e, check := s.grades[g].expert, Attention.CheckOf(cfg, s.tasks[t], g, s.grades[g]).value;
    var s1 := s.(checks := s.checks + [check]);
    var s2 := if check.passed then s1 else Attention.Enforce(cfg, s1, e);
    UpdateRefreshes(cfg, s2, e);
    KeepsStatus(cfg, s2, e);
    assert s2.experts[e] == s.experts[e].(status := s2.experts[e].status);
  }

  lemma KeepsStatus(cfg: Settings, s: State, e: ExpertId)
    requires e < |s.experts|
    ensures Update(cfg, s, e).experts[e].status == s.experts[e].status
  {
  }

  /** A submission with a check rescores its expert by what is on record after it. */
  lemma CheckRescores(cfg: Settings, s: State, s': State, now: int, e: ExpertId, t: TaskId, scores: ScoreSheet,
                      given: Option<RubricId>, since: int)
    requires Linked(s) && e < |s.experts| && Grading.Submit(cfg, s, now, e, t, scores, given) == Ok(s')
    requires |s'.checks| > |s.checks| && TimesOrdered(s') && WindowSince(cfg, s', e, since)
    ensures |s'.experts| == |s.experts| && Rescored(cfg, s.experts[e].tier, s'.experts[e], s', e, since)
  {
    hide TimesOrdered, WindowSince, Rescored, Recalibrated, Consensus.Evaluate, Grading.ValidScores, Grading.Checked,
      Attention.CheckOf, HasGraded;
    var s1 := Grading.Recorded(s, now, e, t, scores);
    var s2 := (if s1.tasks[t].status == Submitted then Consensus.Evaluate(cfg, s1, t) else Ok(s1)).value;
    CheckRows(cfg, s2, t, |s.grades|);
    CheckRefreshes(cfg, s2, t, |s.grades|);
    RecalibratedCounts(cfg, s.experts[e].(status := s'.experts[e].status), s', e, since);
  }

  // ----- an adjudication ----------------------------------------------------------------------------------

  lemma TurnRefreshes(cfg: Settings, s: State, s1: State, now: int, g: GradeId, delivered: GradeId)
    requires Linked(s) && g < |s.grades| && Consensus.ResolveOne(cfg, s, now, g, delivered) == Ok(s1)
    ensures var e := s.grades[g].expert;
            && |s1.experts| == |s.experts| && s1.grades == s.grades
            && s1.experts == s.experts[e := Refreshed(cfg, s.experts[e], s1, e)]
  {
    hide Update, Refreshed, DecisionOf, Consensus.RoundPayout;
    var e := s.grades[g].expert;
    var verdict := Review(g, if g == delivered then Approve else Reject, now);
    var s2 := Consensus.RoundPayout(cfg, s.(reviews := s.reviews + [verdict]), g, g == delivered).value;
    UpdateRefreshes(cfg, s2, e);
    UpdateOthers(cfg, s2, e);
  }

  lemma UpdateOthers(cfg: Settings, s: State, e: ExpertId)
    requires e < |s.experts|
    ensures Update(cfg, s, e).experts == s.experts[e := Update(cfg, s, e).experts[e]]
  {
  }

  ghost predicate DistinctAuthors(s: State, es: seq<Entry>) {
    && (forall i | 0 <= i < |es| :: es[i].id < |s.grades| && Author(s, es[i].id) < |s.experts|)
    && (forall i, j :: 0 <= i < j < |es| ==> Author(s, es[i].id) != Author(s, es[j].id))
  }

  function Author(s: State, g: GradeId): (e: ExpertId)
    requires g < |s.grades|
  {
    s.grades[g].expert
  }

  /** Every author of the entries is rescored, and nobody else has changed. */
  ghost predicate AuthorsRefreshed(cfg: Settings, s: State, s': State, es: seq<Entry>)
    requires forall i | 0 <= i < |es| :: es[i].id < |s.grades| && Author(s, es[i].id) < |s.experts|
  {
    && s'.grades == s.grades && |s'.experts| == |s.experts|
    && (forall i | 0 <= i < |es| ::
          s'.experts[Author(s, es[i].id)] == Refreshed(cfg, s.experts[Author(s, es[i].id)], s', Author(s, es[i].id)))
    && (forall e | 0 <= e < |s.experts| && forall i | 0 <= i < |es| :: Author(s, es[i].id) != e ::
          s'.experts[e] == s.experts[e])
  }

  lemma RefreshedFirst(cfg: Settings, s: State, s1: State, s': State, es: seq<Entry>)
    requires es != [] && DistinctAuthors(s, es) && s1.grades == s.grades && |s1.experts| == |s.experts|
    requires var a := Author(s, es[0].id);
             && s1.experts == s.experts[a := Refreshed(cfg, s.experts[a], s1, a)]
             && Refreshed(cfg, s.experts[a], s', a) == Refreshed(cfg, s.experts[a], s1, a)
    requires forall i | 0 <= i < |es[1..]| :: es[1..][i] == es[i + 1]
    requires AuthorsRefreshed(cfg, s1, s', es[1..])
    ensures AuthorsRefreshed(cfg, s, s', es)
  {
    hide Refreshed;
    var a, rest := Author(s, es[0].id), es[1..];
    assert forall i | 0 <= i < |rest| :: Author(s1, rest[i].id) == Author(s, es[i + 1].id) != a;
    forall i | 0 <= i < |es|
      ensures s'.experts[Author(s, es[i].id)] == Refreshed(cfg, s.experts[Author(s, es[i].id)], s', Author(s, es[i].id))
    {
      if i > 0 {
        assert rest[i - 1] == es[i];
      }
    }
    forall e | 0 <= e < |s.experts| && forall i | 0 <= i < |es| :: Author(s, es[i].id) != e
      ensures s'.experts[e] == s.experts[e]
    {
      assert a != e;
      assert forall i | 0 <= i < |rest| :: Author(s1, rest[i].id) != e;
    }
  }

  lemma {:induction false} LoopRefreshes(cfg: Settings, s: State, s': State, now: int, es: seq<Entry>,
                                         delivered: GradeId)
    requires Linked(s) && (forall e <- es :: e.id < |s.grades|) && DistinctAuthors(s, es)
    requires Consensus.ResolveAll(cfg, s, now, es, delivered) == Ok(s')
    ensures AuthorsRefreshed(cfg, s, s', es)
    decreases |es|
  {
    hide Consensus.ResolveOne, Refreshed, Linked, AuthorsRefreshed;
    if es == [] {
      NobodyRefreshed(cfg, s);
    } else {
      var s1 := Consensus.ResolveOne(cfg, s, now, es[0].id, delivered).value;
      var a := Author(s, es[0].id);
      TurnRefreshes(cfg, s, s1, now, es[0].id, delivered);
      forall i | 0 <= i < |es[1..]| ensures es[1..][i] == es[i + 1] {
      }
      LoopRefreshes(cfg, s1, s', now, es[1..], delivered);
      ResolveReviews(cfg, s1, s', now, es[1..], delivered);
      LoopKeeps(cfg, s1, s', now, es[1..], delivered);
      OthersVerdicts(cfg, s1, s', now, es[1..], delivered, a);
      SameRefresh(cfg, s.experts[a], s1, s', a);
      RefreshedFirst(cfg, s, s1, s', es);
    }
  }

  lemma LoopKeeps(cfg: Settings, s: State, s': State, now: int, es: seq<Entry>, delivered: GradeId)
    requires Linked(s) && (forall e <- es :: e.id < |s.grades|)
    requires Consensus.ResolveAll(cfg, s, now, es, delivered) == Ok(s')
    ensures s'.grades == s.grades && s'.checks == s.checks
  {
  }

  lemma NobodyRefreshed(cfg: Settings, s: State)
    ensures AuthorsRefreshed(cfg, s, s, [])
  {
  }

  lemma SameRefresh(cfg: Settings, x: Expert, s: State, s': State, e: ExpertId)
    requires SameFlags(cfg, s, s', e)
    ensures Refreshed(cfg, x, s', e) == Refreshed(cfg, x, s, e)
  {
  }

  lemma RoundAuthors(cfg: Settings, s: State, clock: int, t: TaskId)
    requires Inv(cfg, s, clock)
    ensures DistinctAuthors(s, TaskEntries(s, t))
  {
    var es := TaskEntries(s, t);
    EntryIds(s.grades, s.reviews, t);
    EntryIdsAscend(s.grades, s.reviews, t);
    forall i | 0 <= i < |es| ensures es[i].id < |s.grades| && s.grades[es[i].id].task == t {
      assert es[i] in es;
    }
  }

  /** An accepted adjudication rescores the author of every grade of its task by what is on record after it. */
  lemma ResolveRescores(cfg: Settings, s: State, s': State, clock: int, now: int, t: TaskId, delivered: GradeId,
                        g: GradeId, since: int)
    requires Inv(cfg, s, clock) && Consensus.Resolve(cfg, s, now, t, delivered) == Ok(s')
    requires g < |s.grades| && s.grades[g].task == t
    requires TimesOrdered(s') && WindowSince(cfg, s', s.grades[g].expert, since)
    ensures var e := s.grades[g].expert;
            e < |s'.experts| && Rescored(cfg, s.experts[e].tier, s'.experts[e], s', e, since)
  {
    hide TimesOrdered, WindowSince, Rescored, Recalibrated, Consensus.ResolveAll, TasksOk, Entries, GradesOk;
    var e, es := s.grades[g].expert, TaskEntries(s, t);
    EntryIds(s.grades, s.reviews, t);
    RoundAuthors(cfg, s, clock, t);
    var s1 := Consensus.ResolveAll(cfg, s, now, es, delivered).value;
    LoopRefreshes(cfg, s, s1, now, es, delivered);
    var i := EntryPresent(s.grades, s.reviews, g);
    assert Author(s, es[i].id) == e;
    SameSignals(cfg, s1, s', e);
    RecalibratedCounts(cfg, s.experts[e], s', e, since);
  }

  // ----- a tick -------------------------------------------------------------------------------------------

  lemma {:induction false} AllRefreshed(cfg: Settings, s: State, n: nat)
    requires n <= |s.experts|
    ensures var s' := Ops.UpdateAll(cfg, s, n);
            forall e | 0 <= e < |s.experts| ::
              s'.experts[e] == if e < n then Refreshed(cfg, s.experts[e], s', e) else s.experts[e]
  {
    hide Update, Refreshed;
    if n > 0 {
      AllRefreshed(cfg, s, n - 1);
      var s1 := Ops.UpdateAll(cfg, s, n - 1);
      UpdateRefreshes(cfg, s1, n - 1);
      UpdateOthers(cfg, s1, n - 1);
      forall e | 0 <= e < n - 1 ensures Refreshed(cfg, s.experts[e], Update(cfg, s1, n - 1), e) == s1.experts[e] {
        UpdateFlags(cfg, s1, n - 1, e);
        SameRefresh(cfg, s.experts[e], s1, Update(cfg, s1, n - 1), e);
      }
    }
  }

  lemma UpdateFlags(cfg: Settings, s: State, e: ExpertId, x: ExpertId)
    requires e < |s.experts|
    ensures SameFlags(cfg, s, Update(cfg, s, e), x)
  {
  }

  /** A tick rescores every expert. */
  lemma TickRescores(cfg: Settings, s: State, now: int, e: ExpertId, since: int)
    requires e < |s.experts| && TimesOrdered(s) && WindowSince(cfg, Ops.Tick(cfg, s, now), e, since)
    ensures var s' := Ops.Tick(cfg, s, now);
            |s'.experts| == |s.experts| && Rescored(cfg, s.experts[e].tier, s'.experts[e], s', e, since)
  {
    hide WindowSince, Rescored, Recalibrated, Ops.UpdateAll;
    var s1 := Routing.ReclaimExpired(s, now);
    AllRefreshed(cfg, s1, |s1.experts|);
    RecalibratedCounts(cfg, s.experts[e], Ops.Tick(cfg, s, now), e, since);
  }
}
