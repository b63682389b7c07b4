/** What holds of the tables after any run of requests, and why each request keeps it. */
module Invariant {
  import opened Wrappers
  import opened Model
  import opened Scores
  import opened Tables
  import opened TaskInvariant
  import Routing
  import Grading
  import Attention
  import Calibration
  import Consensus
  import Payouts
  import Rubrics
  import Ops
  import Service

  // ----- keys and timestamps -----------------------------------------------------------

  /** One grade a (task, expert), submitted at strictly increasing times. */
  ghost predicate GradesOk(s: State, clock: int) {
    && (forall g, h :: 0 <= g < h < |s.grades| ==>
          s.grades[g].task != s.grades[h].task || s.grades[g].expert != s.grades[h].expert)
    && (forall g, h :: 0 <= g < h < |s.grades| ==> s.grades[g].at < s.grades[h].at)
    && (forall g | 0 <= g < |s.grades| :: s.grades[g].at <= clock)
  }

  /** One review a grade. */
  ghost predicate ReviewsOk(s: State, clock: int) {
    && ReviewsLinked(s.grades, s.reviews)
    && (forall i, j :: 0 <= i < j < |s.reviews| ==> s.reviews[i].grade != s.reviews[j].grade)
    && (forall i | 0 <= i < |s.reviews| :: s.reviews[i].at <= clock)
  }

  ghost predicate ChecksOk(s: State, clock: int) {
    forall i | 0 <= i < |s.checks| :: s.checks[i].expert < |s.experts| && s.checks[i].at <= clock
  }

  ghost predicate RoundsOk(s: State) {
    forall t <- s.rounds :: t < |s.tasks|
  }

  ghost predicate TasksOk(cfg: Settings, s: State) {
    forall t | 0 <= t < |s.tasks| :: TaskOk(cfg, s.tasks[t], TaskEntries(s, t), RoundOf(s.rounds, t))
  }

  ghost predicate Inv(cfg: Settings, s: State, clock: int) {
    && Linked(s)
    && GradesOk(s, clock)
    && ReviewsOk(s, clock)
    && ChecksOk(s, clock)
    && RoundsOk(s)
    && TasksOk(cfg, s)
  }

  /** The two states differ, as far as the tasks can see, in one task. */
  ghost predicate OnlyTask(s: State, s': State, t: TaskId) {
    && |s'.tasks| == |s.tasks|
    && (forall u | 0 <= u < |s.tasks| && u != t ::
          && s'.tasks[u] == s.tasks[u] && TaskEntries(s', u) == TaskEntries(s, u)
          && RoundOf(s'.rounds, u) == RoundOf(s.rounds, u))
  }

  lemma OneTask(cfg: Settings, s: State, s': State, t: TaskId)
    requires TasksOk(cfg, s) && OnlyTask(s, s', t) && t < |s.tasks|
    requires TaskOk(cfg, s'.tasks[t], TaskEntries(s', t), RoundOf(s'.rounds, t))
    ensures TasksOk(cfg, s')
  {
  }

  // ----- requests that only add or relabel rows -----------------------------------------

  lemma {:induction false} NoEntries(grades: seq<Grade>, reviews: seq<Review>, t: TaskId)
    requires forall g | 0 <= g < |grades| :: grades[g].task != t
    ensures Entries(grades, reviews, t) == []
  {
    if grades != [] {
      NoEntries(grades[..|grades| - 1], reviews, t);
    }
  }

  lemma CreateTaskKeeps(cfg: Settings, s: State, clock: int, input: Service.TaskInput)
    requires Inv(cfg, s, clock) && Service.AddTask(s, input).Ok?
    ensures Inv(cfg, Service.AddTask(s, input).value, clock)
  {
    var t, s' := |s.tasks|, Service.AddTask(s, input).value;
    NoEntries(s.grades, s.reviews, t);
    assert TaskOk(cfg, s'.tasks[t], TaskEntries(s', t), RoundOf(s'.rounds, t));
  }

  lemma PublishKeeps(cfg: Settings, s: State, clock: int, previous: RubricId, criteria: seq<Criterion>)
    requires Inv(cfg, s, clock) && Rubrics.Publish(s, previous, criteria).Ok?
    ensures Inv(cfg, Rubrics.Publish(s, previous, criteria).value, clock)
  {
    var s' := Rubrics.Publish(s, previous, criteria).value;
    forall t | 0 <= t < |s.tasks| ensures TaskOk(cfg, s'.tasks[t], TaskEntries(s', t), RoundOf(s'.rounds, t)) {
      RetargetKeeps(cfg, s.tasks[t], TaskEntries(s, t), RoundOf(s.rounds, t), previous, |s.rubrics|);
    }
  }

  // ----- leases ---------------------------------------------------------------------------

  lemma ReclaimInv(cfg: Settings, s: State, clock: int, now: int)
    requires Inv(cfg, s, clock)
    ensures Inv(cfg, Routing.ReclaimExpired(s, now), clock)
  {
    var s' := Routing.ReclaimExpired(s, now);
    forall t | 0 <= t < |s.tasks| ensures TaskOk(cfg, s'.tasks[t], TaskEntries(s', t), RoundOf(s'.rounds, t)) {
      ReclaimKeeps(cfg, s.tasks[t], TaskEntries(s, t), RoundOf(s.rounds, t), now);
    }
  }

  lemma AssignInv(cfg: Settings, s: State, clock: int, now: int, t: TaskId, e: ExpertId)
    requires Inv(cfg, s, clock) && t < |s.tasks| && e < |s.experts| && s.tasks[t].status == Queued
    ensures Inv(cfg, Routing.Assign(cfg, s, now, t, e), clock)
  {
    AssignKeeps(cfg, s.tasks[t], TaskEntries(s, t), RoundOf(s.rounds, t), now, e);
  }

  lemma ReleaseInv(cfg: Settings, s: State, clock: int, e: ExpertId, t: TaskId)
    requires Inv(cfg, s, clock) && Routing.Release(s, e, t).Ok?
    ensures Inv(cfg, Routing.Release(s, e, t).value, clock)
  {
    ReleaseKeeps(cfg, s.tasks[t], TaskEntries(s, t), RoundOf(s.rounds, t), e);
  }

  // ----- a submission ----------------------------------------------------------------------

  lemma RecordedKeys(s: State, clock: int, now: int, e: ExpertId, t: TaskId, scores: ScoreSheet)
    requires Linked(s) && GradesOk(s, clock) && ReviewsOk(s, clock) && clock < now
    requires t < |s.tasks| && e < |s.experts| && !HasGraded(s.grades, t, e)
    requires Grading.ValidScores(s.rubrics[Grading.ScoredRubric(s.tasks[t])].criteria, scores)
    ensures var s' := Grading.Recorded(s, now, e, t, scores); Linked(s') && GradesOk(s', now) && ReviewsOk(s', now)
  {
  }

  /** The new grade of a submission, and nothing else, is added to the entries of its task. */
  lemma RecordedEntries(s: State, now: int, e: ExpertId, t: TaskId, scores: ScoreSheet, t': TaskId)
    requires Linked(s) && ReviewsLinked(s.grades, s.reviews) && t < |s.tasks|
    requires Grading.ValidScores(s.rubrics[Grading.ScoredRubric(s.tasks[t])].criteria, scores)
    ensures var s' := Grading.Recorded(s, now, e, t, scores);
            var x := EntryOf(s'.grades[|s.grades|], s.reviews, |s.grades|);
            && x.decision == None
            && TaskEntries(s', t') == TaskEntries(s, t') + if t' == t then [x] else []
  {
    EntriesAppend(s.grades, s.reviews, Grading.NewGrade(s, now, e, t, scores), t');
    Undecided(s.reviews, |s.grades|);
  }

  /** The tables a submission leaves, as far as the invariant depends on them. */
  ghost predicate SubmitShape(cfg: Settings, s: State, s': State, now: int, e: ExpertId, t: TaskId,
        scores: ScoreSheet) {
    && Linked(s) && t < |s.tasks| && s.tasks[t].status == Assigned && s.tasks[t].holder == Some(e)
    && !HasGraded(s.grades, t, e)
    && Grading.ValidScores(s.rubrics[Grading.ScoredRubric(s.tasks[t])].criteria, scores)
    && var s1 := Grading.Recorded(s, now, e, t, scores);
       var (row, round) := SubmittedRow(cfg, s.tasks[t], TaskEntries(s1, t), RoundOf(s.rounds, t), e);
       && s'.grades == s1.grades && s'.reviews == s.reviews && s'.rubrics == s.rubrics && |s'.experts| == |s.experts|
       && s'.checks == s.checks + (match Attention.CheckOf(cfg, s.tasks[t], |s.grades|, s1.grades[|s.grades|])
                                   case Some(c) => [c] case None => [])
       && s'.tasks == s.tasks[t := row]
       && RoundOf(s'.rounds, t) == round
       && (forall u | u != t :: RoundOf(s'.rounds, u) == RoundOf(s.rounds, u))
  }

  /** The round a completed task opens, in terms of the row and the round alone. */
  lemma EvaluateRows(cfg: Settings, s: State, s1: State, s2: State, t: TaskId, e: ExpertId)
    requires t < |s.tasks| && s1 == s.(grades := s1.grades, tasks := s.tasks[t := Grading.GradedRow(s.tasks[t], e)])
    requires (if s1.tasks[t].status == Submitted then Consensus.Evaluate(cfg, s1, t) else Ok(s1)) == Ok(s2)
    ensures var (row, round) := SubmittedRow(cfg, s.tasks[t], TaskEntries(s1, t), RoundOf(s.rounds, t), e);
            && s2 == s1.(tasks := s.tasks[t := row], rounds := s2.rounds)
            && RoundOf(s2.rounds, t) == round
            && (forall u | u != t :: RoundOf(s2.rounds, u) == RoundOf(s.rounds, u))
  {
    assert s.tasks[t := s1.tasks[t]] == s1.tasks;
  }

  lemma SubmitRows(cfg: Settings, s: State, s': State, now: int, e: ExpertId, t: TaskId, scores: ScoreSheet,
                   given: Option<RubricId>)
    requires Linked(s) && e < |s.experts| && Grading.Submit(cfg, s, now, e, t, scores, given) == Ok(s')
    ensures SubmitShape(cfg, s, s', now, e, t, scores)
  {
    hide Consensus.Evaluate, Grading.ValidScores, Entries, Attention.Enforce, Calibration.Update, Scores.Weighted,
      Consensus.NewRound;
    var s1 := Grading.Recorded(s, now, e, t, scores);
    var r2 := if s1.tasks[t].status == Submitted then Consensus.Evaluate(cfg, s1, t) else Ok(s1);
    EvaluateRows(cfg, s, s1, r2.value, t, e);
    CheckRows(cfg, r2.value, t, |s.grades|);
  }

  lemma CheckRows(cfg: Settings, s: State, t: TaskId, g: GradeId)
    requires t < |s.tasks| && g < |s.grades| && s.grades[g].expert < |s.experts|
    ensures Grading.Checked(cfg, s, t, g).checks
         == s.checks + (match Attention.CheckOf(cfg, s.tasks[t], g, s.grades[g]) case Some(c) => [c] case None => [])
  {
  }

  lemma SubmitTasks(cfg: Settings, s: State, s': State, clock: int, now: int, e: ExpertId, t: TaskId,
        scores: ScoreSheet)
    requires Inv(cfg, s, clock) && e < |s.experts| && SubmitShape(cfg, s, s', now, e, t, scores)
    ensures TasksOk(cfg, s')
  {
    var s1 := Grading.Recorded(s, now, e, t, scores);
    RecordedEntries(s, now, e, t, scores, t);
    SubmitKeeps(cfg, s.tasks[t], TaskEntries(s, t), RoundOf(s.rounds, t),
                EntryOf(s1.grades[|s.grades|], s.reviews, |s.grades|));
    forall u | u != t ensures TaskEntries(s', u) == TaskEntries(s, u) {
      RecordedEntries(s, now, e, t, scores, u);
    }
    OneTask(cfg, s, s', t);
  }

  lemma SubmitLinked(s: State, s1: State, s': State, t: TaskId)
    requires Linked(s1) && s'.grades == s1.grades && s'.rubrics == s1.rubrics && |s'.experts| == |s1.experts|
    requires t < |s1.tasks| && |s'.tasks| == |s1.tasks| && s'.tasks == s1.tasks[t := s'.tasks[t]]
    requires s'.tasks[t] == s1.tasks[t].(status := s'.tasks[t].status)
    ensures Linked(s')
  {
    assert LinkedTask(s1, s1.tasks[t]);
  }

  lemma SubmitRounds(s: State, s': State, t: TaskId)
    requires RoundsOk(s) && |s'.tasks| == |s.tasks| && t < |s.tasks|
    requires forall u | u != t :: RoundOf(s'.rounds, u) == RoundOf(s.rounds, u)
    ensures RoundsOk(s')
  {
    forall u <- s'.rounds ensures u < |s'.tasks| {
      if u != t {
        assert RoundOf(s'.rounds, u).Some?;
      }
    }
  }

  lemma SubmitKeys(cfg: Settings, s: State, s': State, clock: int, now: int, e: ExpertId, t: TaskId, scores: ScoreSheet)
    requires Inv(cfg, s, clock) && clock < now && e < |s.experts| && SubmitShape(cfg, s, s', now, e, t, scores)
    ensures Linked(s') && GradesOk(s', now) && ReviewsOk(s', now)
  {
    RecordedKeys(s, clock, now, e, t, scores);
    var s1 := Grading.Recorded(s, now, e, t, scores);
    assert s'.tasks[t] == s1.tasks[t].(status := s'.tasks[t].status);
    SubmitLinked(s, s1, s', t);
  }

  lemma SubmitInv(cfg: Settings, s: State, s': State, clock: int, now: int, e: ExpertId, t: TaskId, scores: ScoreSheet)
    requires Inv(cfg, s, clock) && clock < now && e < |s.experts| && SubmitShape(cfg, s, s', now, e, t, scores)
    ensures Inv(cfg, s', now)
  {
    SubmitTasks(cfg, s, s', clock, now, e, t, scores);
    SubmitKeys(cfg, s, s', clock, now, e, t, scores);
    SubmitRounds(s, s', t);
  }

  /**
   * A submission by the holder with valid scores is refused only for the wrong rubric version or because the expert has
   * already graded the task.
   */
  lemma SubmitOutcome(cfg: Settings, s: State, clock: int, now: int, e: ExpertId, t: TaskId, scores: ScoreSheet,
                      given: Option<RubricId>)
    requires Inv(cfg, s, clock) && clock < now && e < |s.experts| && t < |s.tasks|
    requires s.tasks[t].status == Assigned && s.tasks[t].holder == Some(e)
    requires Grading.ValidScores(s.rubrics[Grading.ScoredRubric(s.tasks[t])].criteria, scores)
    ensures var wrong := given.Some? && given.value != Grading.ScoredRubric(s.tasks[t]);
            var r := Grading.Submit(cfg, s, now, e, t, scores, given);
            && (wrong ==> r == Err(Service(409)))
            && (!wrong && HasGraded(s.grades, t, e) ==> r == Err(Integrity))
            && (!wrong && !HasGraded(s.grades, t, e) ==> r.Ok?)
  {
    if !HasGraded(s.grades, t, e) {
      RecordedEntries(s, now, e, t, scores, t);
      var s1 := Grading.Recorded(s, now, e, t, scores);
      if s1.tasks[t].status == Submitted {
        var x := EntryOf(s1.grades[|s.grades|], s.reviews, |s.grades|);
        CompletedRound(cfg, s.tasks[t], TaskEntries(s, t), RoundOf(s.rounds, t), x);
      }
    }
  }

  lemma CompletedRound(cfg: Settings, task: Task, es: seq<Entry>, round: Option<Round>, x: Entry)
    requires TaskOk(cfg, task, es, round) && task.status == Assigned
    requires x.decision == None && Grading.GradedRow(task, x.expert).status == Submitted
    ensures round == None
  {
  }

  // ----- a review ----------------------------------------------------------------------------

  /** A new review decides its grade and touches no other entry. */
  lemma ReviewEntries(s: State, r: Review, t: TaskId)
    requires r.grade < |s.grades|
    ensures Entries(s.grades, s.reviews + [r], t) == Decided(TaskEntries(s, t), r.grade, r.decision)
    ensures s.grades[r.grade].task != t ==> Decided(TaskEntries(s, t), r.grade, r.decision) == TaskEntries(s, t)
  {
    var es := TaskEntries(s, t);
    EntriesUnder(s.grades, s.reviews, s.reviews + [r], t);
    EntryIds(s.grades, s.reviews, t);
    forall i | 0 <= i < |es|
      ensures Entries(s.grades, s.reviews + [r], t)[i] == Decided(es, r.grade, r.decision)[i]
      ensures s.grades[r.grade].task != t ==> Decided(es, r.grade, r.decision)[i] == es[i]
    {
      assert es[i] in es;
      DecisionAppend(s.reviews, r, es[i].id);
    }
  }

  lemma ReviewTasks(cfg: Settings, s: State, s': State, clock: int, now: int, g: GradeId, d: Decision)
    requires Inv(cfg, s, clock) && Grading.ReviewGrade(cfg, s, now, g, d) == Ok(s')
    ensures TasksOk(cfg, s')
  {
    var t, r := s.grades[g].task, Review(g, d, now);
    ReviewRows(cfg, s, s', now, g, d);
    EntryIdsAscend(s.grades, s.reviews, t);
    var i := EntryPresent(s.grades, s.reviews, g);
    ReviewEntries(s, r, t);
    ReviewKeeps(cfg, s.tasks[t], TaskEntries(s, t), RoundOf(s.rounds, t), i, d);
    forall u | u != t ensures TaskEntries(s', u) == TaskEntries(s, u) {
      ReviewEntries(s, r, u);
    }
    OneTask(cfg, s, s', t);
  }

  lemma ReviewInv(cfg: Settings, s: State, s': State, clock: int, now: int, g: GradeId, d: Decision)
    requires Inv(cfg, s, clock) && clock < now && Grading.ReviewGrade(cfg, s, now, g, d) == Ok(s')
    ensures Inv(cfg, s', now)
  {
    hide Grading.ReviewGrade, TasksOk, TaskEntries, ReviewedRound;
    ReviewTasks(cfg, s, s', clock, now, g, d);
    ReviewRows(cfg, s, s', now, g, d);
    Undecided(s.reviews, g);
    assert RoundsOk(s');
  }

  /** The tables a review changes that tasks depend on. */
  lemma ReviewRows(cfg: Settings, s: State, s': State, now: int, g: GradeId, d: Decision)
    requires Linked(s) && Grading.ReviewGrade(cfg, s, now, g, d) == Ok(s')
    ensures g < |s.grades| && DecisionOf(s.reviews, g) == None && !Grading.ReviewBlocked(s.tasks[s.grades[g].task])
    ensures var t := s.grades[g].task;
            && s'.grades == s.grades && s'.checks == s.checks && s'.rubrics == s.rubrics && |s'.experts| == |s.experts|
            && s'.reviews == s.reviews + [Review(g, d, now)]
            && s'.tasks == s.tasks[t := Grading.ReviewedRow(s.tasks[t], d)]
            && RoundOf(s'.rounds, t) == ReviewedRound(TaskEntries(s', t), RoundOf(s.rounds, t), g, d)
            && s'.rounds.Keys == s.rounds.Keys
            && (forall u | u != t :: RoundOf(s'.rounds, u) == RoundOf(s.rounds, u))
  {
  }

  // ----- an adjudication -----------------------------------------------------------------------

  function VerdictRows(es: seq<Entry>, delivered: GradeId, now: int): (r: seq<Review>)
    ensures |r| == |es|
  {
    seq(|es|, i requires 0 <= i < |es| => Review(es[i].id, if es[i].id == delivered then Approve else Reject, now))
  }

  /** The loop records one verdict a grade, in order, and leaves everything the tasks depend on alone. */
  lemma VerdictRowsCons(es: seq<Entry>, delivered: GradeId, now: int)
    requires es != []
    ensures VerdictRows(es, delivered, now)
         == [Review(es[0].id, if es[0].id == delivered then Approve else Reject, now)]
            + VerdictRows(es[1..], delivered, now)
  {
  }

  lemma ResolveOneReview(cfg: Settings, s: State, s': State, now: int, g: GradeId, delivered: GradeId)
    requires Linked(s) && g < |s.grades| && Consensus.ResolveOne(cfg, s, now, g, delivered) == Ok(s')
    ensures s'.reviews == s.reviews + [Review(g, if g == delivered then Approve else Reject, now)]
    ensures |s'.experts| == |s.experts|
  {
  }

  /** The loop records one verdict a grade, in order, and leaves everything the tasks depend on alone. */
  lemma {:induction false} ResolveReviews(cfg: Settings, s: State, s': State, now: int, es: seq<Entry>,
        delivered: GradeId)
    requires Linked(s) && (forall e <- es :: e.id < |s.grades|)
    requires Consensus.ResolveAll(cfg, s, now, es, delivered) == Ok(s')
    ensures s'.reviews == s.reviews + VerdictRows(es, delivered, now) && |s'.experts| == |s.experts|
    decreases |es|
  {
    hide Calibration.SignalFlags, Consensus.RoundPayout, DecisionOf;
    if es != [] {
      var s1 := Consensus.ResolveOne(cfg, s, now, es[0].id, delivered).value;
      ResolveOneReview(cfg, s, s1, now, es[0].id, delivered);
      ResolveReviews(cfg, s1, s', now, es[1..], delivered);
      VerdictRowsCons(es, delivered, now);
    }
  }

  lemma {:induction false} DecisionAfter(reviews: seq<Review>, rows: seq<Review>, g: GradeId)
    requires forall i, j :: 0 <= i < j < |rows| ==> rows[i].grade != rows[j].grade
    ensures forall i | 0 <= i < |rows| :: rows[i].grade == g ==> DecisionOf(reviews + rows, g) == Some(rows[i].decision)
    ensures (forall i | 0 <= i < |rows| :: rows[i].grade != g) ==>
              DecisionOf(reviews + rows, g) == DecisionOf(reviews, g)
  {
    if rows == [] {
      assert reviews + rows == reviews;
    } else {
      var front, last := rows[..|rows| - 1], rows[|rows| - 1];
      DecisionAfter(reviews, front, g);
      assert reviews + rows == (reviews + front) + [last];
      DecisionAppend(reviews + front, last, g);
    }
  }

  lemma ResolvedEntries(s: State, now: int, t: TaskId, delivered: GradeId, u: TaskId)
    ensures var reviews := s.reviews + VerdictRows(TaskEntries(s, t), delivered, now);
            Entries(s.grades, reviews, u)
            == if u == t then Verdicts(TaskEntries(s, t), delivered) else TaskEntries(s, u)
  {
    var rows, es := VerdictRows(TaskEntries(s, t), delivered, now), TaskEntries(s, u);
    EntriesUnder(s.grades, s.reviews, s.reviews + rows, u);
    EntryIdsAscend(s.grades, s.reviews, t);
    EntryIds(s.grades, s.reviews, t);
    EntryIds(s.grades, s.reviews, u);
    assert forall j | 0 <= j < |rows| :: TaskEntries(s, t)[j] in TaskEntries(s, t);
    forall i | 0 <= i < |es|
      ensures DecisionOf(s.reviews + rows, es[i].id) == if u == t then Some(rows[i].decision) else es[i].decision
    {
      assert es[i] in es;
      DecisionAfter(s.reviews, rows, es[i].id);
      if u == t {
        assert rows[i].grade == es[i].id;
      }
    }
  }

  lemma ResolvedKeys(cfg: Settings, s: State, clock: int, now: int, t: TaskId, delivered: GradeId)
    requires Inv(cfg, s, clock) && clock < now && NoneReviewed(TaskEntries(s, t))
    ensures var rows := VerdictRows(TaskEntries(s, t), delivered, now);
            ReviewsOk(s.(reviews := s.reviews + rows), now)
  {
    var es := TaskEntries(s, t);
    var rows := VerdictRows(es, delivered, now);
    EntryIdsAscend(s.grades, s.reviews, t);
    EntryIds(s.grades, s.reviews, t);
    forall i, j | 0 <= i < |s.reviews| && 0 <= j < |rows| ensures s.reviews[i].grade != rows[j].grade {
      assert es[j] in es;
      Undecided(s.reviews, es[j].id);
    }
  }

  /** The tables an adjudication leaves that tasks depend on. */
  lemma ResolveRows(cfg: Settings, s: State, s': State, now: int, t: TaskId, delivered: GradeId)
    requires Linked(s) && Consensus.Resolve(cfg, s, now, t, delivered) == Ok(s')
    ensures t < |s.tasks| && t in s.rounds && s.rounds[t].status == Adjudicating
    ensures exists i | 0 <= i < |TaskEntries(s, t)| :: TaskEntries(s, t)[i].id == delivered
    ensures && s'.grades == s.grades && s'.checks == s.checks && s'.rubrics == s.rubrics && |s'.experts| == |s.experts|
            && s'.reviews == s.reviews + VerdictRows(TaskEntries(s, t), delivered, now)
            && s'.tasks == s.tasks[t := s.tasks[t].(status := Approved)]
            && s'.rounds == s.rounds[t := s.rounds[t].(status := Adjudicated, delivered := Some(delivered))]
  {
    EntryIds(s.grades, s.reviews, t);
    var es := TaskEntries(s, t);
    ResolveReviews(cfg, s, Consensus.ResolveAll(cfg, s, now, es, delivered).value, now, es, delivered);
    var e :| e in es && e.id == delivered;
    var i :| 0 <= i < |es| && es[i] == e;
  }

  lemma ResolveTasks(cfg: Settings, s: State, s': State, clock: int, now: int, t: TaskId, delivered: GradeId)
    requires Inv(cfg, s, clock) && Consensus.Resolve(cfg, s, now, t, delivered) == Ok(s')
    ensures TasksOk(cfg, s') && NoneReviewed(TaskEntries(s, t))
  {
    hide Verdicts, Calibration.Update;
    ResolveRows(cfg, s, s', now, t, delivered);
    var es := TaskEntries(s, t);
    var i :| 0 <= i < |es| && es[i].id == delivered;
    ResolveKeeps(cfg, s.tasks[t], es, s.rounds[t], i);
    ResolvedEntries(s, now, t, delivered, t);
    forall u | u != t ensures TaskEntries(s', u) == TaskEntries(s, u) {
      ResolvedEntries(s, now, t, delivered, u);
    }
    OneTask(cfg, s, s', t);
  }

  lemma ResolveInv(cfg: Settings, s: State, s': State, clock: int, now: int, t: TaskId, delivered: GradeId)
    requires Inv(cfg, s, clock) && clock < now && Consensus.Resolve(cfg, s, now, t, delivered) == Ok(s')
    ensures Inv(cfg, s', now)
  {
    hide Calibration.Update, TaskOk;
    ResolveTasks(cfg, s, s', clock, now, t, delivered);
    ResolveRows(cfg, s, s', now, t, delivered);
    ResolvedKeys(cfg, s, clock, now, t, delivered);
    assert RoundsOk(s');
  }

  // ----- every request ---------------------------------------------------------------------------

  predicate Creates(ev: Service.Event) {
    ev.CreateExpert? || ev.CreateRubric? || ev.PutRateCard? || ev.CreateTask? || ev.Publish?
  }

  predicate Routes(ev: Service.Event) {
    ev.ClaimNext? || ev.ClaimById? || ev.Release? || ev.Reclaim? || ev.Tick?
  }

  predicate Grades(ev: Service.Event) {
    ev.Submit? || ev.ReviewGrade? || ev.Resolve?
  }

  lemma CreateInv(cfg: Settings, s: State, s': State, clock: int, now: int, ev: Service.Event)
    requires Inv(cfg, s, clock) && Creates(ev) && Service.Apply(cfg, s, now, ev) == Ok(s')
    ensures Inv(cfg, s', clock)
  {
    match ev {
      case CreateTask(input) => CreateTaskKeeps(cfg, s, clock, input);
      case Publish(previous, criteria) => PublishKeeps(cfg, s, clock, previous, criteria);
      case _ =>
    }
  }

  /** Refreshing tiers touches no table the invariant speaks of but the experts, and keeps their number. */
  lemma TickInv(cfg: Settings, s: State, clock: int, n: nat)
    requires Inv(cfg, s, clock) && n <= |s.experts|
    ensures Inv(cfg, Ops.UpdateAll(cfg, s, n), clock)
  {
    hide Inv, Calibration.Update;
    SameWork(cfg, s, Ops.UpdateAll(cfg, s, n), clock);
  }

  lemma RouteInv(cfg: Settings, s: State, s': State, clock: int, now: int, ev: Service.Event)
    requires Inv(cfg, s, clock) && Routes(ev) && Service.Apply(cfg, s, now, ev) == Ok(s')
    ensures Inv(cfg, s', clock)
  {
    hide Calibration.SignalFlags, TaskEntries, TaskOk, Routing.PickAmong, Ops.UpdateAll;
    ReclaimInv(cfg, s, clock, now);
    var s1 := Routing.ReclaimExpired(s, now);
    match ev {
      case ClaimNext(e) =>
        var pick := Routing.Choice(cfg, s1, e);
        if pick.Some? {
          AssignInv(cfg, s1, clock, now, pick.value, e);
        }
      case ClaimById(e, t) =>
        AssignInv(cfg, s1, clock, now, t, e);
      case Release(e, t) =>
        ReleaseInv(cfg, s, clock, e, t);
      case Reclaim =>
      case Tick =>
        TickInv(cfg, s1, clock, |s1.experts|);
    }
  }

  lemma GradeInv(cfg: Settings, s: State, s': State, clock: int, now: int, ev: Service.Event)
    requires Inv(cfg, s, clock) && clock < now && Grades(ev) && Service.Apply(cfg, s, now, ev) == Ok(s')
    ensures Inv(cfg, s', now)
  {
    match ev {
      case Submit(e, t, scores, given) =>
        SubmitRows(cfg, s, s', now, e, t, scores, given);
        SubmitInv(cfg, s, s', clock, now, e, t, scores);
      case ReviewGrade(g, d) => ReviewInv(cfg, s, s', clock, now, g, d);
      case Resolve(t, delivered) => ResolveInv(cfg, s, s', clock, now, t, delivered);
    }
  }

  /** The invariant speaks of no payout, period or delivery, and of no more than the number of experts. */
  lemma SameWork(cfg: Settings, s: State, s': State, clock: int)
    requires Inv(cfg, s, clock) && |s'.experts| == |s.experts|
    requires s' == s.(experts := s'.experts, payouts := s'.payouts, periods := s'.periods, moves := s'.moves,
                      deliveries := s'.deliveries)
    ensures Inv(cfg, s', clock)
  {
    hide TaskOk, Entries;
  }

  lemma ManageInv(cfg: Settings, s: State, s': State, clock: int, now: int, ev: Service.Event)
    requires Inv(cfg, s, clock) && (ev.SetStatus? || ev.ClosePeriod? || ev.Export?)
    requires Service.Apply(cfg, s, now, ev) == Ok(s')
    ensures Inv(cfg, s', clock)
  {
    hide Inv, Payouts.CloseRow, Payouts.Restate;
    SameWork(cfg, s, s', clock);
  }

  lemma Later(cfg: Settings, s: State, clock: int, now: int)
    requires Inv(cfg, s, clock) && clock <= now
    ensures Inv(cfg, s, now)
  {
  }

  /** Every request, accepted or refused, keeps the invariant. */
  lemma CommitInv(cfg: Settings, s: State, clock: int, now: int, ev: Service.Event)
    requires Inv(cfg, s, clock) && clock < now
    ensures Inv(cfg, Service.Commit(cfg, s, now, ev), now)
  {
    Later(cfg, s, clock, now);
    var r := Service.Apply(cfg, s, now, ev);
    if r.Ok? {
      if Creates(ev) {
        CreateInv(cfg, s, r.value, now, now, ev);
      } else if Routes(ev) {
        RouteInv(cfg, s, r.value, now, now, ev);
      } else if Grades(ev) {
        GradeInv(cfg, s, r.value, clock, now, ev);
      } else {
        ManageInv(cfg, s, r.value, now, now, ev);
      }
    }
  }
}
