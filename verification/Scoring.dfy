/** Stored scores are the weighted scores of their rubric version, so close graders agree. */
module Scoring {
  import opened Wrappers
  import opened Model
  import opened Scores
  import opened Tables
  import opened TaskInvariant
  import opened Invariant
  import opened Statuses
  import Calibration
  import Routing
  import Grading
  import Consensus
  import Rubrics
  import Service

  /** A stored grade has valid scores for its rubric version and their weighted score. */
  predicate ScoredGrade(rubrics: seq<Rubric>, grade: Grade) {
    && grade.rubric < |rubrics|
    && Grading.ValidScores(rubrics[grade.rubric].criteria, grade.scores)
    && (forall c <- rubrics[grade.rubric].criteria :: c.key in grade.scores)
    && grade.weighted == Weighted(rubrics[grade.rubric].criteria, grade.scores)
  }

  ghost predicate GradesScored(s: State) {
    forall g | 0 <= g < |s.grades| :: ScoredGrade(s.rubrics, s.grades[g])
  }

  /** Rubric versions are immutable: later tables only add versions and supersede old ones. */
  ghost predicate CriteriaKept(a: seq<Rubric>, b: seq<Rubric>) {
    |a| <= |b| && forall i | 0 <= i < |a| :: b[i].criteria == a[i].criteria
  }

  lemma ScoredKept(s: State, s': State)
    requires GradesScored(s) && CriteriaKept(s.rubrics, s'.rubrics) && s'.grades == s.grades
    ensures GradesScored(s')
  {
    hide Weighted, Grading.ValidScores;
    forall g | 0 <= g < |s.grades| ensures ScoredGrade(s'.rubrics, s.grades[g]) {
      assert ScoredGrade(s.rubrics, s.grades[g]);
    }
  }

  lemma SubmitScored(cfg: Settings, s: State, s': State, now: int, e: ExpertId, t: TaskId, scores: ScoreSheet)
    requires GradesScored(s) && SubmitShape(cfg, s, s', now, e, t, scores)
    ensures GradesScored(s')
  {
    hide Weighted, SubmittedRow;
    forall g | 0 <= g < |s.grades| ensures ScoredGrade(s'.rubrics, s.grades[g]) {
      assert ScoredGrade(s.rubrics, s.grades[g]);
    }
    var criteria := s.rubrics[Grading.ScoredRubric(s.tasks[t])].criteria;
    assert forall c <- criteria :: c.key in Grading.CriterionKeys(criteria);
  }

  lemma OtherScored(cfg: Settings, s: State, s': State, now: int, ev: Service.Event)
    requires Linked(s) && !ev.Submit? && Service.Apply(cfg, s, now, ev) == Ok(s')
    ensures s'.grades == s.grades && CriteriaKept(s.rubrics, s'.rubrics)
  {
    hide Calibration.Update, Entries, Routing.Eligible, Routing.PickAmong, Rubrics.LatestVersion,
      Grading.ReviewGrade, Consensus.Resolve;
    match ev {
      case Resolve(t, delivered) => ResolveRows(cfg, s, s', now, t, delivered);
      case ReviewGrade(g, d) => ReviewRows(cfg, s, s', now, g, d);
      case _ =>
    }
  }

  lemma AcceptedScored(cfg: Settings, s: State, s': State, now: int, ev: Service.Event)
    requires Linked(s) && GradesScored(s) && Service.Apply(cfg, s, now, ev) == Ok(s')
    ensures GradesScored(s')
  {
    hide GradesScored, Grading.Submit;
    if ev.Submit? {
      SubmitRows(cfg, s, s', now, ev.expert, ev.task, ev.scores, ev.given);
      SubmitScored(cfg, s, s', now, ev.expert, ev.task, ev.scores);
    } else {
      OtherScored(cfg, s, s', now, ev);
      ScoredKept(s, s');
    }
  }

  // ----- consensus ------------------------------------------------------------------------------

  /** Weights a rubric can average with. */
  predicate Weighs(criteria: seq<Criterion>) {
    (forall c <- criteria :: 0.0 <= c.weight) && 0.0 < TotalWeight(criteria)
  }

  /** A stored score lies within any scale that holds the scales of its criteria. */
  lemma StoredWithinScale(s: State, g: GradeId, lo: int, hi: int)
    requires GradesScored(s) && g < |s.grades|
    requires var criteria := s.rubrics[s.grades[g].rubric].criteria;
             Weighs(criteria) && forall c <- criteria :: lo <= c.lo && c.hi <= hi
    ensures lo as real <= s.grades[g].weighted <= hi as real
  {
    var grade := s.grades[g];
    assert ScoredGrade(s.rubrics, grade);
    WeightedWithinScale(s.rubrics[grade.rubric].criteria, grade.scores, lo as real, hi as real);
  }

  /** Two grades of one task, at most delta apart on every criterion. */
  predicate Close(criteria: seq<Criterion>, a: Grade, b: Grade, delta: real) {
    forall c <- criteria :: c.key in a.scores && c.key in b.scores && Abs(a.scores[c.key] - b.scores[c.key]) <= delta
  }

  lemma CloseScores(s: State, g: GradeId, h: GradeId, r: RubricId, delta: real)
    requires GradesScored(s) && g < |s.grades| && h < |s.grades| && r < |s.rubrics|
    requires s.grades[g].rubric == r && s.grades[h].rubric == r && Weighs(s.rubrics[r].criteria)
    requires Close(s.rubrics[r].criteria, s.grades[g], s.grades[h], delta)
    ensures Abs(s.grades[g].weighted - s.grades[h].weighted) <= delta
  {
    hide TotalWeight;
    assert ScoredGrade(s.rubrics, s.grades[g]) && ScoredGrade(s.rubrics, s.grades[h]);
    WeightedDifference(s.rubrics[r].criteria, s.grades[g].scores, s.grades[h].scores, delta);
  }

  /**
   * Graders pairwise within delta on every criterion have a round of spread at most delta; within tolerance they
   * agree.
   */
  lemma CloseGradersAgree(cfg: Settings, s: State, clock: int, t: TaskId, delta: real)
    requires Inv(cfg, s, clock) && GradesScored(s) && t in s.rounds && t < |s.tasks|
    requires var criteria := s.rubrics[s.tasks[t].rubric].criteria;
             && Weighs(criteria)
             && forall g, h | 0 <= g < |s.grades| && 0 <= h < |s.grades| && s.grades[g].task == t
                              && s.grades[h].task == t ::
                  Close(criteria, s.grades[g], s.grades[h], delta)
    ensures s.rounds[t].spread <= delta
    ensures delta <= cfg.consensusTolerance ==> s.rounds[t].status == Agreed
  {
    hide TasksOk, GradesScored, Weighs, Close, Spread;
    RoundOfMulti(cfg, s, clock, t);
    var es := TaskEntries(s, t);
    EntryIds(s.grades, s.reviews, t);
    forall a, b | a in es && b in es ensures Abs(a.score - b.score) <= delta {
      RoundOneVersion(cfg, s, clock, a.id);
      RoundOneVersion(cfg, s, clock, b.id);
      CloseScores(s, a.id, b.id, s.tasks[t].rubric, delta);
    }
    SpreadIsLeast(es, delta);
  }
}
