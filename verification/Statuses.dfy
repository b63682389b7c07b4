/** What a task row tells about its grades, reviews and round, in every state the invariant allows. */
module Statuses {
  import opened Wrappers
  import opened Model
  import opened Scores
  import opened Tables
  import opened TaskInvariant
  import opened Invariant
  import Grading
  import Ops

  // ----- single-grader tasks ---------------------------------------------------------------

  lemma {:induction false} UnrejectedOne(es: seq<Entry>)
    requires es != [] && AllRejected(es[..|es| - 1]) && Unrejected(es[|es| - 1])
    ensures |UnrejectedOf(es)| == 1
  {
    NoUnrejected(es[..|es| - 1]);
  }

  /** A regular single-grader task never has a round, and `grades_received` counts its grades that are not rejected. */
  lemma SingleGrader(cfg: Settings, s: State, clock: int, t: TaskId)
    requires Inv(cfg, s, clock) && t < |s.tasks| && !s.tasks[t].golden && s.tasks[t].required == 1
    ensures t !in s.rounds && s.tasks[t].status != Adjudication && s.tasks[t].status != Rejected
    ensures s.tasks[t].received == |UnrejectedOf(TaskEntries(s, t))|
  {
    var task, es := s.tasks[t], TaskEntries(s, t);
    assert TaskOk(cfg, task, es, RoundOf(s.rounds, t));
    if task.received == 0 {
      NoUnrejected(es);
    } else {
      UnrejectedOne(es);
    }
  }

  /** Sending a rejected task back to the queue takes off exactly one grade: the clamp at zero never binds. */
  lemma RequeueExact(cfg: Settings, s: State, clock: int, now: int, g: GradeId)
    requires Inv(cfg, s, clock) && Grading.ReviewGrade(cfg, s, now, g, Reject).Ok?
    ensures g < |s.grades|
    ensures var t, s' := s.grades[g].task, Grading.ReviewGrade(cfg, s, now, g, Reject).value;
            !s.tasks[t].golden && s.tasks[t].required == 1 ==>
              s'.tasks == s.tasks[t := s.tasks[t].(status := Queued, received := s.tasks[t].received - 1)]
  {
    hide Grading.ReviewGrade, Entries, LeaseOk;
    var s' := Grading.ReviewGrade(cfg, s, now, g, Reject).value;
    ReviewRows(cfg, s, s', now, g, Reject);
    var t := s.grades[g].task;
    if !s.tasks[t].golden && s.tasks[t].required == 1 {
      var i := EntryPresent(s.grades, s.reviews, g);
      EntryIdsAscend(s.grades, s.reviews, t);
      assert TaskOk(cfg, s.tasks[t], TaskEntries(s, t), RoundOf(s.rounds, t));
      ReviewSingle(s.tasks[t], TaskEntries(s, t), i, Reject);
    }
  }

  // ----- golden tasks -----------------------------------------------------------------------

  /** Golden tasks only ever wait or are held, and count every grade. */
  lemma GoldenTask(cfg: Settings, s: State, clock: int, t: TaskId)
    requires Inv(cfg, s, clock) && t < |s.tasks| && s.tasks[t].golden
    ensures s.tasks[t].status == Queued || s.tasks[t].status == Assigned
    ensures t !in s.rounds && s.tasks[t].received == |TaskEntries(s, t)|
  {
    assert TaskOk(cfg, s.tasks[t], TaskEntries(s, t), RoundOf(s.rounds, t));
  }

  // ----- tasks with several graders -----------------------------------------------------------

  lemma DecisionsDiffer(es: seq<Entry>)
    ensures NoneReviewed(es) <==> !SomeDecision(es, Approve) && !SomeDecision(es, Reject)
  {
    if !NoneReviewed(es) {
      var i :| 0 <= i < |es| && es[i].decision.Some?;
      var d := es[i].decision.value;
      assert SomeDecision(es, d) && (d == Approve || d == Reject);
    }
  }

  /** The status of a multi-grader task says which round it has and what its reviewers have decided. */
  lemma MultiGrader(cfg: Settings, s: State, clock: int, t: TaskId)
    requires Inv(cfg, s, clock) && t < |s.tasks| && !s.tasks[t].golden && s.tasks[t].required >= 2
    ensures var task, es, round := s.tasks[t], TaskEntries(s, t), RoundOf(s.rounds, t);
            && task.received == |es|
            && (round == None <==> task.status == Queued || task.status == Assigned)
            && (round == None <==> |es| < task.required)
            && (task.status == Adjudication <==> round.Some? && round.value.status == Adjudicating)
            && (task.status == Submitted <==> round.Some? && round.value.status == Agreed && NoneReviewed(es))
            && (task.status == Rejected <==>
                  round.Some? && round.value.status == Agreed && !NoneReviewed(es) && !SomeDecision(es, Approve))
            && (task.status == Approved <==> SomeDecision(es, Approve))
  {
    var task, es, round := s.tasks[t], TaskEntries(s, t), RoundOf(s.rounds, t);
    assert TaskOk(cfg, task, es, round);
    DecisionsDiffer(es);
    if round.Some? && round.value.status == Adjudicated {
      var i :| 0 <= i < |es| && es[i].id == round.value.delivered.value && Unrejected(es[i]);
      assert es[i].decision == Some(Approve);
    }
  }

  lemma AdjudicatingRound(cfg: Settings, s: State, clock: int, t: TaskId)
    requires Inv(cfg, s, clock) && t < |s.tasks|
    ensures s.tasks[t].status == Adjudication <==> t in s.rounds && s.rounds[t].status == Adjudicating
  {
    if s.tasks[t].golden {
      GoldenTask(cfg, s, clock, t);
    } else if s.tasks[t].required >= 2 {
      MultiGrader(cfg, s, clock, t);
    } else {
      assert TaskOk(cfg, s.tasks[t], TaskEntries(s, t), RoundOf(s.rounds, t));
      SingleGrader(cfg, s, clock, t);
    }
  }

  lemma {:induction false} BacklogPrefix(cfg: Settings, s: State, clock: int, n: nat)
    requires Inv(cfg, s, clock) && n <= |s.tasks|
    ensures Ops.Backlog(s.rounds, n) == Ops.CountStatus(s.tasks[..n], Adjudication)
  {
    if n > 0 {
      BacklogPrefix(cfg, s, clock, n - 1);
      AdjudicatingRound(cfg, s, clock, n - 1);
      assert s.tasks[..n][..n - 1] == s.tasks[..n - 1];
    }
  }

  /**
   * The adjudication backlog, counted over rounds, is the adjudication entry of the queue summary, counted over tasks.
   */
  lemma BacklogIsAdjudication(cfg: Settings, s: State, clock: int)
    requires Inv(cfg, s, clock)
    ensures Ops.Backlog(s.rounds, |s.tasks|) == Ops.CountStatus(s.tasks, Adjudication)
  {
    BacklogPrefix(cfg, s, clock, |s.tasks|);
    assert s.tasks[..|s.tasks|] == s.tasks;
  }

  // ----- rounds --------------------------------------------------------------------------------

  lemma RoundOfMulti(cfg: Settings, s: State, clock: int, t: TaskId)
    requires Inv(cfg, s, clock) && t in s.rounds
    ensures t < |s.tasks| && !s.tasks[t].golden && s.tasks[t].required >= 2
    ensures TaskEntries(s, t) != [] && RoundOk(cfg, s.tasks[t], TaskEntries(s, t), s.rounds[t])
  {
    assert TaskOk(cfg, s.tasks[t], TaskEntries(s, t), RoundOf(s.rounds, t));
  }

  lemma HeldGrade(s: State, t: TaskId, g: GradeId)
    requires Holds(TaskEntries(s, t), g)
    ensures g < |s.grades| && s.grades[g].task == t && DecisionOf(s.reviews, g) != Some(Reject)
  {
    EntryIds(s.grades, s.reviews, t);
    var es := TaskEntries(s, t);
    var i :| 0 <= i < |es| && es[i].id == g && Unrejected(es[i]);
    assert es[i] in es;
  }

  /** Once settled, a round delivers a grade of its task that is not rejected, and none only if all are rejected. */
  lemma DeliveredGrade(cfg: Settings, s: State, clock: int, t: TaskId)
    requires Inv(cfg, s, clock) && t in s.rounds && s.rounds[t].status != Adjudicating
    ensures var delivered := s.rounds[t].delivered;
            && (delivered == None <==> AllRejected(TaskEntries(s, t)))
            && (delivered.Some? ==>
                  && delivered.value < |s.grades| && s.grades[delivered.value].task == t
                  && DecisionOf(s.reviews, delivered.value) != Some(Reject))
  {
    RoundOfMulti(cfg, s, clock, t);
    if s.rounds[t].delivered.Some? {
      HeldGrade(s, t, s.rounds[t].delivered.value);
      var es := TaskEntries(s, t);
      var i :| 0 <= i < |es| && es[i].id == s.rounds[t].delivered.value && Unrejected(es[i]);
      assert es[i].decision != Some(Reject);
    }
  }

  /** When every grade has been reviewed and one approved, the delivered grade is an approved one. */
  lemma DeliveredApproved(cfg: Settings, s: State, clock: int, t: TaskId)
    requires Inv(cfg, s, clock) && t in s.rounds && SomeDecision(TaskEntries(s, t), Approve)
    requires forall i | 0 <= i < |TaskEntries(s, t)| :: TaskEntries(s, t)[i].decision.Some?
    ensures s.rounds[t].delivered.Some? && DecisionOf(s.reviews, s.rounds[t].delivered.value) == Some(Approve)
  {
    RoundOfMulti(cfg, s, clock, t);
    var es := TaskEntries(s, t);
    var a :| 0 <= a < |es| && es[a].decision == Some(Approve);
    assert es[a].decision != None && es[a].decision != Some(Reject);
    DeliveredGrade(cfg, s, clock, t);
    var g := s.rounds[t].delivered.value;
    var i := EntryPresent(s.grades, s.reviews, g);
    assert es[i].decision == DecisionOf(s.reviews, g) && es[i].decision.Some?;
    assert es[i].decision.value == Approve || es[i].decision.value == Reject;
  }

  /** Every grade a round compares was scored under the rubric version its task is on. */
  lemma RoundOneVersion(cfg: Settings, s: State, clock: int, g: GradeId)
    requires Inv(cfg, s, clock) && g < |s.grades|
    requires s.tasks[s.grades[g].task].golden || s.tasks[s.grades[g].task].required >= 2
    ensures s.grades[g].rubric == s.tasks[s.grades[g].task].rubric
  {
    var t := s.grades[g].task;
    assert TaskOk(cfg, s.tasks[t], TaskEntries(s, t), RoundOf(s.rounds, t));
    var i := EntryPresent(s.grades, s.reviews, g);
    assert TaskEntries(s, t)[i].rubric == s.grades[g].rubric;
  }

  /** The grade an agreed round delivers is within tolerance of every grade of the task. */
  lemma DeliveredWithinTolerance(cfg: Settings, s: State, clock: int, t: TaskId, g: GradeId)
    requires Inv(cfg, s, clock) && t in s.rounds && s.rounds[t].status == Agreed && s.rounds[t].delivered.Some?
    requires g < |s.grades| && s.grades[g].task == t
    ensures s.rounds[t].delivered.value < |s.grades|
    ensures Abs(s.grades[s.rounds[t].delivered.value].weighted - s.grades[g].weighted) <= cfg.consensusTolerance
  {
    RoundOfMulti(cfg, s, clock, t);
    DeliveredGrade(cfg, s, clock, t);
    var d := s.rounds[t].delivered.value;
    var i := EntryPresent(s.grades, s.reviews, d);
    var j := EntryPresent(s.grades, s.reviews, g);
    var es := TaskEntries(s, t);
    assert es[i] in es && es[j] in es;
    WithinSpread(es, es[i], es[j]);
  }
}
