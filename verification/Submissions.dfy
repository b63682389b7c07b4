/** What a submission writes and when it is refused, in terms of the rows: grade, task, check and guard. */
module Submissions {
  import opened Wrappers
  import opened Model
  import opened Tables
  import opened Windows
  import opened Invariant
  import opened TaskInvariant
  import opened Agreement
  import Attention
  import Calibration
  import Consensus
  import Grading
  import Rubrics
  import Scores

  // ----- when it is refused -------------------------------------------------------------------------------

  /** Exactly the criteria are scored, each on its scale. */
  ghost predicate Scored(cs: seq<Criterion>, scores: ScoreSheet) {
    && (forall key :: key in scores <==> exists i | 0 <= i < |cs| :: cs[i].key == key)
    && forall i | 0 <= i < |cs| && cs[i].key in scores :: cs[i].lo as real <= scores[cs[i].key] <= cs[i].hi as real
  }

  lemma ScoredIs(cs: seq<Criterion>, scores: ScoreSheet)
    ensures Scored(cs, scores) <==> Grading.ValidScores(cs, scores)
  {
    forall key ensures key in Grading.CriterionKeys(cs) <==> exists i | 0 <= i < |cs| :: cs[i].key == key {
      if i :| 0 <= i < |cs| && cs[i].key == key {
        assert cs[i] in cs;
      }
    }
    if Scored(cs, scores) {
      forall c <- cs ensures c.key in scores && c.lo as real <= scores[c.key] <= c.hi as real {
        var i :| 0 <= i < |cs| && cs[i] == c;
        assert cs[i].key in scores;
      }
    }
    if Grading.ValidScores(cs, scores) {
      forall i | 0 <= i < |cs| && cs[i].key in scores
        ensures cs[i].lo as real <= scores[cs[i].key] <= cs[i].hi as real {
        assert cs[i] in cs;
      }
    }
  }

  /** The version the task was leased under, or the one it is on if it never was. */
  function LeasedVersion(task: Task): (v: RubricId) {
    match task.pinned
    case Some(v) => v
    case None => task.rubric
  }

  /** A submission is refused for exactly these reasons, in this order. */
  lemma SubmitRefused(cfg: Settings, s: State, clock: int, now: int, e: ExpertId, t: TaskId, scores: ScoreSheet,
                      given: Option<RubricId>)
    requires Inv(cfg, s, clock) && clock < now && e < |s.experts|
    ensures var r := Grading.Submit(cfg, s, now, e, t, scores, given);
            if t >= |s.tasks| then r == Err(Service(404))
            else if s.tasks[t].status != Assigned || s.tasks[t].holder != Some(e) then r == Err(Service(409))
            else if given.Some? && given.value != LeasedVersion(s.tasks[t]) then r == Err(Service(409))
            else LeasedVersion(s.tasks[t]) < |s.rubrics|
                 && if !Scored(s.rubrics[LeasedVersion(s.tasks[t])].criteria, scores) then r == Err(Service(422))
                    else if exists g :: 0 <= g < |s.grades| && s.grades[g].task == t && s.grades[g].expert == e
                    then r == Err(Integrity)
                    else r.Ok?
  {
    hide Scored, Grading.ValidScores, TasksOk, GradesOk, RoundsOk, Consensus.Evaluate, Grading.Checked, ReviewsOk;
    if t < |s.tasks| {
      assert LinkedTask(s, s.tasks[t]);
      var v := LeasedVersion(s.tasks[t]);
      ScoredIs(s.rubrics[v].criteria, scores);
      if s.tasks[t].status == Assigned && s.tasks[t].holder == Some(e)
         && Grading.ValidScores(s.rubrics[v].criteria, scores) {
        SubmitOutcome(cfg, s, clock, now, e, t, scores, given);
      }
    }
  }

  // ----- what it writes -----------------------------------------------------------------------------------

  /** The lease is over, and the task waits for graders, for reviewers or for an adjudicator. */
  ghost predicate SubmittedTask(s: State, s': State, t: TaskId)
    requires t < |s.tasks|
  {
    && |s'.tasks| == |s.tasks| && (forall u | 0 <= u < |s.tasks| && u != t :: s'.tasks[u] == s.tasks[u])
    && var was, task := s.tasks[t], s'.tasks[t];
       && task.holder == None && task.assignedAt == None && task.lease == None
       && task.received == was.received + 1 && task.reclaims == was.reclaims && task.pinned == was.pinned
       && SameTask(was, task)
       && task.status == (if was.golden || was.received + 1 < was.required then Queued
                          else if t !in s.rounds && t in s'.rounds && s'.rounds[t].status != Agreed then Adjudication
                          else Submitted)
  }

  lemma SubmittedTaskIs(cfg: Settings, s: State, s': State, now: int, e: ExpertId, t: TaskId, scores: ScoreSheet)
    requires SubmitShape(cfg, s, s', now, e, t, scores)
    requires t in s.rounds ==> |s'.tasks| == |s.tasks| && s'.tasks[t].status != Adjudication
    ensures SubmittedTask(s, s', t)
  {
    hide Grading.ValidScores, Entries, Scores.Weighted, HasGraded, Scores.Spread, Scores.ClosestToMean, UnrejectedOf;
  }

  ghost predicate SubmittedGrade(s: State, s': State, now: int, e: ExpertId, t: TaskId, scores: ScoreSheet)
    requires t < |s.tasks|
  {
    && |s'.grades| == |s.grades| + 1 && s'.grades[..|s.grades|] == s.grades
    && var grade := s'.grades[|s.grades|];
       && grade.task == t && grade.expert == e && grade.rubric == LeasedVersion(s.tasks[t])
       && grade.scores == scores && grade.at == now
  }

  lemma SubmittedGradeIs(cfg: Settings, s: State, s': State, now: int, e: ExpertId, t: TaskId, scores: ScoreSheet)
    requires SubmitShape(cfg, s, s', now, e, t, scores)
    ensures SubmittedGrade(s, s', now, e, t, scores)
  {
    hide Grading.ValidScores, Entries, Scores.Weighted, HasGraded, SubmittedRow, Attention.CheckOf;
  }

  /** One grade more on the leased version; the other tables but rounds, checks and payouts stay as they were. */
  lemma SubmitWrites(cfg: Settings, s: State, s': State, now: int, e: ExpertId, t: TaskId, scores: ScoreSheet,
                     given: Option<RubricId>)
    requires Linked(s) && e < |s.experts| && Grading.Submit(cfg, s, now, e, t, scores, given) == Ok(s')
    ensures t < |s.tasks| && SubmittedTask(s, s', t) && SubmittedGrade(s, s', now, e, t, scores)
    ensures s' == s.(grades := s'.grades, tasks := s'.tasks, rounds := s'.rounds, checks := s'.checks,
                     experts := s'.experts, payouts := s'.payouts, moves := s'.moves)
  {
    SubmitRows(cfg, s, s', now, e, t, scores, given);
    SubmitFrame(cfg, s, s', now, e, t, scores, given);
    SubmittedTaskIs(cfg, s, s', now, e, t, scores);
    SubmittedGradeIs(cfg, s, s', now, e, t, scores);
  }

  lemma SubmitFrame(cfg: Settings, s: State, s': State, now: int, e: ExpertId, t: TaskId, scores: ScoreSheet,
                    given: Option<RubricId>)
    requires Linked(s) && e < |s.experts| && Grading.Submit(cfg, s, now, e, t, scores, given) == Ok(s')
    ensures s' == s.(grades := s'.grades, tasks := s'.tasks, rounds := s'.rounds, checks := s'.checks,
                     experts := s'.experts, payouts := s'.payouts, moves := s'.moves)
    ensures t in s.rounds ==> |s'.tasks| == |s.tasks| && t < |s.tasks| && s'.tasks[t].status != Adjudication
  {
    hide Grading.ValidScores, Entries, Attention.Enforce, Attention.CheckOf, Calibration.Update, Scores.Weighted,
      HasGraded, Consensus.NewRound;
  }

  /** The columns a task keeps from its creation. */
  predicate SameTask(a: Task, b: Task) {
    && b.tags == a.tags && b.kind == a.kind && b.minTier == a.minTier && b.rubric == a.rubric
    && b.priority == a.priority && b.deadline == a.deadline && b.required == a.required
    && b.golden == a.golden && b.expected == a.expected
  }

  // ----- the score ----------------------------------------------------------------------------------------

  /** The grade stores the weighted score of its sheet under the leased version. */
  lemma SubmittedScore(cfg: Settings, s: State, s': State, now: int, e: ExpertId, t: TaskId, scores: ScoreSheet,
                       given: Option<RubricId>)
    requires Linked(s) && e < |s.experts| && Grading.Submit(cfg, s, now, e, t, scores, given) == Ok(s')
    ensures t < |s.tasks| && LeasedVersion(s.tasks[t]) < |s.rubrics|
    ensures var cs := s.rubrics[LeasedVersion(s.tasks[t])].criteria;
            && (forall c <- cs :: c.key in scores)
            && |s'.grades| == |s.grades| + 1 && s'.grades[|s.grades|].weighted == Scores.Weighted(cs, scores)
  {
    hide Entries, Scores.Weighted, HasGraded, SubmittedRow, Attention.CheckOf, Grading.Submit;
    SubmitRows(cfg, s, s', now, e, t, scores, given);
    assert LinkedTask(s, s.tasks[t]);
    var cs := s.rubrics[LeasedVersion(s.tasks[t])].criteria;
    assert forall c <- cs :: c.key in Grading.CriterionKeys(cs);
  }

  function Times(a: real, b: real): (r: real) {
    a * b
  }

  lemma {:induction false} ElsewhereSum(cs: seq<Criterion>, scores: ScoreSheet, key: Key, x: real)
    requires forall c <- cs :: c.key in scores && c.key != key
    ensures Scores.WeightedSum(cs, scores[key := x]) == Scores.WeightedSum(cs, scores)
  {
    if cs != [] {
      ElsewhereSum(cs[1..], scores, key, x);
    }
  }

  lemma {:induction false} OneScoreSum(cs: seq<Criterion>, scores: ScoreSheet, i: nat, x: real)
    requires (forall c <- cs :: c.key in scores) && Rubrics.DistinctKeys(cs) && i < |cs|
    ensures Scores.WeightedSum(cs, scores[cs[i].key := x])
         == Scores.WeightedSum(cs, scores) + Times(cs[i].weight, x - scores[cs[i].key])
  {
    var key := cs[i].key;
    if i == 0 {
      ElsewhereSum(cs[1..], scores, key, x);
      assert x * cs[0].weight == scores[key] * cs[0].weight + cs[0].weight * (x - scores[key]);
    } else {
      OneScoreSum(cs[1..], scores, i - 1, x);
    }
  }

  lemma Quotients(a: real, b: real, total: real)
    requires total != 0.0
    ensures Times(total, a / total - b / total) == a - b
  {
    var x, y := a / total, b / total;
    assert x * total == a && y * total == b;
    assert total * (x - y) == total * x - total * y;
  }

  /** Moving one score moves the weighted score by its criterion's share of the total weight. */
  lemma OneScoreMoves(cs: seq<Criterion>, scores: ScoreSheet, i: nat, x: real)
    requires (forall c <- cs :: c.key in scores) && Rubrics.DistinctKeys(cs) && i < |cs|
    requires Scores.TotalWeight(cs) != 0.0
    ensures Times(Scores.TotalWeight(cs), Scores.Weighted(cs, scores[cs[i].key := x]) - Scores.Weighted(cs, scores))
         == Times(cs[i].weight, x - scores[cs[i].key])
  {
    hide Times;
    OneScoreSum(cs, scores, i, x);
    Quotients(Scores.WeightedSum(cs, scores[cs[i].key := x]), Scores.WeightedSum(cs, scores), Scores.TotalWeight(cs));
  }

  /** Equal scores weigh as much as each of them; weights that add up to nothing are taken to add up to one. */
  lemma EqualScores(cs: seq<Criterion>, scores: ScoreSheet, x: real)
    requires forall c <- cs :: c.key in scores && scores[c.key] == x
    ensures Scores.Weighted(cs, scores) == if Scores.TotalWeight(cs) == 0.0 then 0.0 else x
  {
    SumOfEqual(cs, scores, x);
    Scores.FlatSumIsProduct(cs, x);
    var total := Scores.TotalWeight(cs);
    if total != 0.0 {
      Quotient(x, total);
    } else {
      assert x * total == 0.0;
    }
  }

  lemma Quotient(x: real, total: real)
    requires total != 0.0
    ensures x * total / total == x
  {
  }

  lemma {:induction false} SumOfEqual(cs: seq<Criterion>, scores: ScoreSheet, x: real)
    requires forall c <- cs :: c.key in scores && scores[c.key] == x
    ensures Scores.WeightedSum(cs, scores) == Scores.FlatSum(cs, x)
  {
    if cs != [] {
      SumOfEqual(cs[1..], scores, x);
    }
  }
}
