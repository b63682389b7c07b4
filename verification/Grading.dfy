/** panelist/services/grading.py: grade submission and review decisions. */
module Grading {
  import opened Wrappers
  import opened Model
  import opened Tables
  import opened Routing
  import Floats
  import Scores
  import Weighing
  import Attention
  import Calibration
  import Consensus
  import Payouts

  function CriterionKeys(cs: seq<Criterion>): (keys: set<Key>) {
    set c <- cs :: c.key
  }

  /** Exactly the rubric's keys, each score within its criterion's scale. */
  predicate ValidScores(cs: seq<Criterion>, scores: ScoreSheet) {
    && scores.Keys == CriterionKeys(cs)
    && forall c <- cs :: c.lo as real <= scores[c.key] <= c.hi as real
  }

  /** The rubric version a submission is scored against: the pinned one, else the task's. */
  function ScoredRubric(task: Task): (r: RubricId) {
    if task.pinned.Some? then task.pinned.value else task.rubric
  }

  /** Whether the pending rounds of a task keep a reviewer away. */
  function ReviewBlocked(task: Task): (r: bool) {
    !task.golden && task.required >= 2 && (task.received < task.required || task.status == Adjudication)
  }

  function GradedRow(task: Task, e: ExpertId): (r: Task) {
    var counted := Unleased(task).(received := task.received + 1, history := task.history + [Graded(e)]);
    if counted.golden || counted.received < counted.required
    then counted.(status := Queued) else counted.(status := Submitted)
  }

  function NewGrade(s: State, now: int, e: ExpertId, t: TaskId, scores: ScoreSheet): (g: Grade)
    requires Linked(s) && t < |s.tasks|
    requires ValidScores(s.rubrics[ScoredRubric(s.tasks[t])].criteria, scores)
  {
    var rubric := ScoredRubric(s.tasks[t]);
    assert forall c <- s.rubrics[rubric].criteria :: c.key in CriterionKeys(s.rubrics[rubric].criteria);
    Grade(t, e, rubric, scores, Scores.Weighted(s.rubrics[rubric].criteria, scores), now)
  }

  /** The grade and the task row of a submission, before the round and the attention check are looked at. */
  function Recorded(s: State, now: int, e: ExpertId, t: TaskId, scores: ScoreSheet): (r: State)
    requires Linked(s) && t < |s.tasks|
    requires ValidScores(s.rubrics[ScoredRubric(s.tasks[t])].criteria, scores)
  {
    s.(grades := s.grades + [NewGrade(s, now, e, t, scores)], tasks := s.tasks[t := GradedRow(s.tasks[t], e)])
  }

  /** The attention check of a submission, with the guard after a failure, and the calibration that follows it. */
  function Checked(cfg: Settings, s: State, t: TaskId, g: GradeId): (r: State)
    requires t < |s.tasks| && g < |s.grades| && s.grades[g].expert < |s.experts|
    ensures r == s.(checks := r.checks, experts := r.experts, payouts := r.payouts, moves := r.moves)
    ensures |r.experts| == |s.experts|
  {
    var e := s.grades[g].expert;
    var check := Attention.CheckOf(cfg, s.tasks[t], g, s.grades[g]);
    if check == None then s else
      var s1 := s.(checks := s.checks + [check.value]);
      var s2 := if check.value.passed then s1 else Attention.Enforce(cfg, s1, e);
      Calibration.Update(cfg, s2, e)
  }

  function Submit(cfg: Settings, s: State, now: int, e: ExpertId, t: TaskId, scores: ScoreSheet,
                  given: Option<RubricId>): (r: Result<State>)
    requires Linked(s) && e < |s.experts|
  {
    if t >= |s.tasks| then Err(Service(404))
    else if s.tasks[t].status != Assigned || s.tasks[t].holder != Some(e) then Err(Service(409))
    else
      var rubric := ScoredRubric(s.tasks[t]);
      if given.Some? && given.value != rubric then Err(Service(409))
      else if !ValidScores(s.rubrics[rubric].criteria, scores) then Err(Service(422))
      else if HasGraded(s.grades, t, e) then Err(Integrity)
      else
        var s1 := Recorded(s, now, e, t, scores);
        var s2 :- if s1.tasks[t].status == Submitted then Consensus.Evaluate(cfg, s1, t) else Ok(s1);
        Ok(Checked(cfg, s2, t, |s.grades|))
  }

  method SubmitGrade(db: Session, cfg: Settings, now: int, e: ExpertId, t: TaskId, scores: ScoreSheet,
                     given: Option<RubricId>) returns (r: Result<GradeId>)
    requires Linked(db.Snapshot()) && e < |db.experts|
    modifies db
    ensures match Submit(cfg, old(db.Snapshot()), now, e, t, scores, given)
            case Ok(s) => r == Ok(old(|db.grades|)) && db.Snapshot() == s
            case Err(error) => r == Err(error)
  {
    hide Scores.Weighted, Consensus.NewRound, Consensus.Evaluate, Checked, Attention.CheckOf, HasGraded,
      ValidScores;
    if t >= |db.tasks| {
      return Err(Service(404));
    }
    var task := db.tasks[t];
    if task.status != Assigned || task.holder != Some(e) {
      return Err(Service(409));
    }
    var rubric := if task.pinned.Some? then task.pinned.value else task.rubric;
    if given.Some? && given.value != rubric {
      return Err(Service(409));
    }
    if !ValidScores(db.rubrics[rubric].criteria, scores) {
      return Err(Service(422));
    }
    if HasGraded(db.grades, t, e) {
      return Err(Integrity);
    }
    var g := |db.grades|;
    var complete := RecordGrade(db, now, e, t, scores);
    if complete {
      var _ :- Consensus.EvaluateRound(db, cfg, t);
    }
    CheckGrade(db, cfg, t, g);
    return Ok(g);
  }

  /** The stored weighted score in doubles: the quotient of two builtin sums. */
  method StoredScore(cfg: Settings, criteria: seq<Criterion>, scores: ScoreSheet) returns (r: Floats.Double64)
    ensures r == Weighing.ServiceScore(cfg.columns.floats, criteria, scores)
  {
    var total := Floats.SumFloats(cfg.columns.floats, Weighing.Weights(cfg.columns.floats, criteria));
    var sum := Floats.SumFloats(cfg.columns.floats, Weighing.Products(cfg.columns.floats, criteria, scores));
    return Floats.Div(cfg.columns.floats, sum, Weighing.OrOne(total));
  }

  method RecordGrade(db: Session, now: int, e: ExpertId, t: TaskId, scores: ScoreSheet) returns (complete: bool)
    requires Linked(db.Snapshot()) && t < |db.tasks|
    requires ValidScores(db.rubrics[ScoredRubric(db.tasks[t])].criteria, scores)
    modifies db
    ensures db.Snapshot() == Recorded(old(db.Snapshot()), now, e, t, scores)
    ensures complete <==> db.tasks[t].status == Submitted
  {
    ghost var grade := NewGrade(db.Snapshot(), now, e, t, scores);
    var task := db.tasks[t];
    var rubric := ScoredRubric(task);
    assert forall c <- db.rubrics[rubric].criteria :: c.key in CriterionKeys(db.rubrics[rubric].criteria);
    var weighted := Scores.Weighted(db.rubrics[rubric].criteria, scores);
    db.grades := db.grades + [Grade(t, e, rubric, scores, weighted, now)];
    assert db.grades == old(db.grades) + [grade];

    task := task.(received := task.received + 1, history := task.history + [Graded(e)]);
    task := task.(holder := None, assignedAt := None, lease := None);
    complete := !(task.golden || task.received < task.required);
    task := task.(status := if complete then Submitted else Queued);
    db.tasks := db.tasks[t := task];
  }

  method CheckGrade(db: Session, cfg: Settings, t: TaskId, g: GradeId)
    requires g < |db.grades| && db.grades[g].task == t < |db.tasks| && db.grades[g].expert < |db.experts|
    modifies db
    ensures db.Snapshot() == Checked(cfg, old(db.Snapshot()), t, g)
  {
    var e := db.grades[g].expert;
    var check := Attention.Evaluate(db, cfg, g);
    if check.Some? {
      if !check.value.passed {
        var _ := Attention.EnforceGuard(db, cfg, e);
      }
      var _ := Calibration.UpdateExpert(db, cfg, e);
    }
  }

  /** A rejected single-grader task goes back to the queue for a different expert. */
  function Requeued(task: Task): (r: Task) {
    task.(status := Queued, received := if task.received - 1 > 0 then task.received - 1 else 0)
  }

  /** The task row after a decision on one of its grades. */
  function ReviewedRow(task: Task, decision: Decision): (r: Task) {
    if task.golden then task
    else if decision == Approve then task.(status := Approved)
    else if task.required == 1 then Requeued(task)
    else if task.status != Approved then task.(status := Rejected)
    else task
  }

  function ReviewGrade(cfg: Settings, s: State, now: int, g: GradeId, decision: Decision): (r: Result<State>)
    requires Linked(s)
  {
    if g >= |s.grades| then Err(Service(404))
    else if DecisionOf(s.reviews, g).Some? then Err(Service(409))
    else
      var t := s.grades[g].task;
      if ReviewBlocked(s.tasks[t]) then Err(Service(409)) else
        var s1 := s.(reviews := s.reviews + [Review(g, decision, now)]);
        var s2 :- if decision == Approve then Payouts.CreateForGrade(s1, g, 1.0) else Ok(s1);
        var s3 := s2.(tasks := s2.tasks[t := ReviewedRow(s2.tasks[t], decision)]);
        var s4 := if decision == Reject then Consensus.Redeliver(s3, t, g) else s3;
        Ok(Calibration.Update(cfg, s4, s4.grades[g].expert))
  }

  method ReviewGradeNow(db: Session, cfg: Settings, now: int, g: GradeId, decision: Decision) returns (r: Result<()>)
    requires Linked(db.Snapshot())
    modifies db
    ensures match ReviewGrade(cfg, old(db.Snapshot()), now, g, decision)
            case Ok(s) => r.Ok? && db.Snapshot() == s
            case Err(error) => r == Err(error)
  {
    if g >= |db.grades| {
      return Err(Service(404));
    }
    if DecisionOf(db.reviews, g).Some? {
      return Err(Service(409));
    }
    var t := db.grades[g].task;
    if ReviewBlocked(db.tasks[t]) {
      return Err(Service(409));
    }
    db.reviews := db.reviews + [Review(g, decision, now)];
    if decision == Approve {
      var _ :- Payouts.CreatePayout(db, g, 1.0);
    }
    var task := db.tasks[t];
    if !task.golden {
      if decision == Approve {
        task := task.(status := Approved);
      } else if task.required == 1 {
        task := Requeued(task);
      } else if task.status != Approved {
        task := task.(status := Rejected);
      }
      db.tasks := db.tasks[t := task];
    }
    assert db.tasks == old(db.tasks)[t := ReviewedRow(old(db.tasks)[t], decision)];
    if decision == Reject {
      Consensus.RedeliverRound(db, t, g);
    }
    var _ := Calibration.UpdateExpert(db, cfg, db.grades[g].expert);
    return Ok(());
  }
}
