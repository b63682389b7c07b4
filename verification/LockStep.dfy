/** The port and the service in lock step: same claims, statuses, verdicts, payouts and rows over every shared run. */
module LockStep {
  import opened Wrappers
  import opened Model
  import opened Scores
  import opened Tables
  import opened TaskInvariant
  import opened Invariant
  import Port
  import Routing
  import Queue
  import Attention
  import Calibration
  import Consensus
  import Grading
  import Payouts
  import Rounding
  import Experts
  import Statuses
  import Delivery

  // ----- what the port sees of the service's tables ------------------------------------------------

  /** The port keeps time in milliseconds. */
  function Ms(t: Option<int>): (r: Option<int>) {
    if t == None then None else Some(1000 * t.value)
  }

  function ViewExpert(x: Expert): (r: Port.Expert) {
    Port.Expert(x.tags, x.tier, x.rate, x.status, x.served)
  }

  function ViewTask(t: Task): (r: Port.Task) {
    Port.Task(t.tags, t.kind, t.minTier, t.priority, Ms(t.deadline), t.status, t.required, t.received, t.golden,
              if t.expected == [] then None else Some(t.expected), t.holder, Ms(t.assignedAt), Ms(t.lease), t.reclaims)
  }

  function ViewGrade(g: Grade, decision: Option<Decision>): (r: Port.Grade) {
    Port.Grade(g.task, g.expert, g.scores, g.weighted, 1000 * g.at, decision)
  }

  function ViewCheck(c: Check): (r: Check) {
    c.(at := 1000 * c.at)
  }

  function ViewExperts(xs: seq<Expert>): (r: seq<Port.Expert>)
    ensures |r| == |xs|
  {
    seq(|xs|, i requires 0 <= i < |xs| => ViewExpert(xs[i]))
  }

  function ViewTasks(ts: seq<Task>): (r: seq<Port.Task>)
    ensures |r| == |ts|
  {
    seq(|ts|, i requires 0 <= i < |ts| => ViewTask(ts[i]))
  }

  function ViewGrades(gs: seq<Grade>, reviews: seq<Review>): (r: seq<Port.Grade>)
    ensures |r| == |gs|
  {
    seq(|gs|, i requires 0 <= i < |gs| => ViewGrade(gs[i], DecisionOf(reviews, i)))
  }

  function ViewChecks(cs: seq<Check>): (r: seq<Check>)
    ensures |r| == |cs|
  {
    seq(|cs|, i requires 0 <= i < |cs| => ViewCheck(cs[i]))
  }

  function ViewRubric(rubrics: seq<Rubric>): (r: Option<Port.Rubric>) {
    if rubrics == [] then None else Some(Port.Rubric(rubrics[0].name, rubrics[0].version, rubrics[0].criteria))
  }

  function ViewDeliveries(ds: seq<Model.Delivery>): (r: seq<Port.Delivery>)
    ensures |r| == |ds|
  {
    seq(|ds|, i requires 0 <= i < |ds| => Port.Delivery(ds[i].version, ds[i].rows))
  }

  function View(s: State): (p: Port.Sim) {
    Port.Sim(ViewExperts(s.experts), s.cards, ViewRubric(s.rubrics),
             ViewTasks(s.tasks), ViewGrades(s.grades, s.reviews), s.payouts, s.periods, ViewChecks(s.checks),
             ViewDeliveries(s.deliveries), {})
  }

  // ----- the shared domain ----------------------------------------------------------------------------

  ghost predicate SharedTask(s: State, task: Task) {
    && task.required == 1 && task.rubric == 0 && (task.pinned.Some? ==> task.pinned.value == 0)
    && (task.golden ==> task.expected != [])
  }

  /** One rubric version, one grader a task, and nobody holds a task they have graded. */
  ghost predicate Shared(cfg: Settings, s: State, clock: int) {
    && Inv(cfg, s, clock)
    && |s.rubrics| == 1 && s.rubrics[0].supersededBy == None
    && (forall t | 0 <= t < |s.tasks| :: SharedTask(s, s.tasks[t]))
    && (forall t | 0 <= t < |s.tasks| && s.tasks[t].holder.Some? :: !HasGraded(s.grades, t, s.tasks[t].holder.value))
  }

  /** The request moved no tier: calibration is not part of the port. */
  predicate NoMove(s: State, r: Result<State>) {
    r.Ok? ==> r.value.moves == s.moves
  }

  lemma NoRounds(cfg: Settings, s: State, clock: int)
    requires Shared(cfg, s, clock)
    ensures s.rounds == map[]
  {
    hide TasksOk;
    forall t ensures t !in s.rounds {
      if t in s.rounds {
        Statuses.RoundOfMulti(cfg, s, clock, t);
        assert false;
      }
    }
    assert s.rounds == map[];
  }

  // ----- routing ------------------------------------------------------------------------------------------

  lemma ReclaimView(s: State, now: int)
    ensures View(Routing.ReclaimExpired(s, now)) == View(s).(tasks := Port.Reclaimed(View(s).tasks, 1000 * now, {}))
  {
    var a, b := View(Routing.ReclaimExpired(s, now)).tasks, Port.Reclaimed(View(s).tasks, 1000 * now, {});
    forall i | 0 <= i < |a| ensures a[i] == b[i] {
    }
    assert a == b;
  }

  lemma GradedView(s: State, e: ExpertId, t: TaskId)
    ensures Port.AlreadyGraded(View(s).grades, e, t) == HasGraded(s.grades, t, e)
  {
    if HasGraded(s.grades, t, e) {
      var g :| 0 <= g < |s.grades| && s.grades[g].task == t && s.grades[g].expert == e;
      assert View(s).grades[g].task == t;
    }
    if Port.AlreadyGraded(View(s).grades, e, t) {
      var g :| 0 <= g < |s.grades| && View(s).grades[g].task == t && View(s).grades[g].expert == e;
      assert s.grades[g].task == t;
    }
  }

  lemma CandidateView(s: State, e: ExpertId, golden: bool, t: TaskId)
    requires e < |s.experts|
    ensures Port.Wanted(View(s), e, Some(golden), t) == Queue.Candidate(s, e, golden, t)
  {
    if t < |s.tasks| {
      GradedView(s, e, t);
    }
  }

  lemma OrderView(s: State, i: TaskId, j: TaskId)
    requires i < |s.tasks| && j < |s.tasks|
    ensures Port.Order(View(s).tasks, i, j) < 0 <==> Routing.Precedes(s.tasks, i, j)
    ensures Port.Order(View(s).tasks, i, j) == 0 <==> i == j
  {
  }

  /** Sorted by a comparison that is never zero on different tasks: the first of the list goes before all others. */
  lemma {:induction false} SortedFirst(s: State, ids: seq<TaskId>)
    requires Port.Rows(ids, |s.tasks|)
    ensures var r := Port.Sorted(View(s).tasks, ids);
            r != [] ==> forall t <- ids :: t == r[0] || Routing.Precedes(s.tasks, r[0], t)
  {
    if ids != [] {
      SortedFirst(s, ids[1..]);
      var rest := Port.Sorted(View(s).tasks, ids[1..]);
      assert multiset(rest) == multiset(ids[1..]);
      if rest != [] {
        OrderView(s, ids[0], rest[0]);
        OrderView(s, rest[0], ids[0]);
        assert rest[0] in multiset(rest);
        forall t <- ids[1..] | Routing.Precedes(s.tasks, ids[0], rest[0]) && t != rest[0]
          ensures Routing.Precedes(s.tasks, ids[0], t)
        {
          Queue.PrecedesTransitive(s.tasks, ids[0], rest[0], t);
        }
        if ids[0] != rest[0] {
          Queue.PrecedesTotal(s.tasks, ids[0], rest[0]);
        }
      }
    }
  }

  /** Sorting the candidates and taking the first is picking the first row of the ordered query. */
  lemma PickView(s: State, e: ExpertId, golden: bool)
    requires e < |s.experts|
    ensures Port.Pick(View(s), e, Some(golden)) == Routing.Pick(s, e, golden)
  {
    hide Routing.PickAmong, Routing.Eligible, Port.IsEligible, Port.Wanted, Routing.Precedes;
    var p, want := View(s), Some(golden);
    forall t: TaskId ensures Port.Wanted(p, e, want, t) == Queue.Candidate(s, e, golden, t) {
      CandidateView(s, e, golden, t);
    }
    Queue.PickLeast(s, e, golden);
    var ids := Port.Filtered(p, e, want, |p.tasks|);
    SortedFirst(s, ids);
    var mine, theirs := Port.Pick(p, e, want), Routing.Pick(s, e, golden);
    if theirs.Some? {
      assert Queue.Candidate(s, e, golden, theirs.value);
      assert theirs.value in Port.Candidates(p, e, want);
    }
    if mine.Some? {
      assert Queue.Candidate(s, e, golden, mine.value);
      if mine.value != theirs.value {
        assert theirs.value in ids;
        Queue.PrecedesTotal(s.tasks, mine.value, theirs.value);
        assert false;
      }
    }
  }

  lemma AssignView(cfg: Settings, s: State, now: int, t: TaskId, e: ExpertId)
    requires e < |s.experts| && t < |s.tasks|
    ensures View(Routing.Assign(cfg, s, now, t, e)) == Port.Assign(cfg, View(s), 1000 * now, t, e)
  {
    var a, b := View(Routing.Assign(cfg, s, now, t, e)), Port.Assign(cfg, View(s), 1000 * now, t, e);
    assert a.tasks == b.tasks;
    assert a.experts == b.experts;
  }

  lemma ClaimView(cfg: Settings, s: State, now: int, e: ExpertId)
    requires e < |s.experts|
    ensures match Routing.ClaimNext(cfg, s, now, e)
            case Ok((s', pick)) => Port.ClaimNext(cfg, View(s), 1000 * now, e) == Ok((View(s'), pick))
            case Err(error) => Port.ClaimNext(cfg, View(s), 1000 * now, e) == Err(error)
  {
    hide Routing.Pick, Routing.Eligible, Port.Pick, Port.Wanted, Routing.Assign, Port.Assign;
    ReclaimView(s, now);
    var s1 := Routing.ReclaimExpired(s, now);
    PickView(s1, e, true);
    PickView(s1, e, false);
    var pick := Routing.Choice(cfg, s1, e);
    if pick.Some? {
      AssignView(cfg, s1, now, pick.value, e);
    }
  }

  lemma ReleaseView(s: State, e: ExpertId, t: TaskId)
    ensures match Routing.Release(s, e, t)
            case Ok(s') => Port.Release(View(s), e, t) == Ok(View(s'))
            case Err(error) => Port.Release(View(s), e, t) == Err(error)
  {
    var r := Routing.Release(s, e, t);
    if r.Ok? {
      assert View(r.value).tasks == Port.Release(View(s), e, t).value.tasks;
    }
  }

  // ----- grading ------------------------------------------------------------------------------------------

  /** An update that records no move changes nothing the port has. */
  lemma UpdateView(cfg: Settings, s: State, e: ExpertId)
    requires e < |s.experts| && Calibration.Update(cfg, s, e).moves == s.moves
    ensures View(Calibration.Update(cfg, s, e)) == View(s)
  {
    hide Windows.Merge, Windows.Rate;
    var s' := Calibration.Update(cfg, s, e);
    assert ViewExperts(s'.experts) == ViewExperts(s.experts);
  }

  lemma {:induction false} ResultsView(checks: seq<Check>, e: ExpertId)
    ensures Port.ResultsOf(ViewChecks(checks), e) == Attention.CheckFlags(checks, e)
  {
    if checks != [] {
      ResultsView(checks[..|checks| - 1], e);
      assert ViewChecks(checks)[..|checks| - 1] == ViewChecks(checks[..|checks| - 1]);
    }
  }

  lemma EnforceView(cfg: Settings, s: State, e: ExpertId)
    requires e < |s.experts|
    ensures View(Attention.Enforce(cfg, s, e)) == Port.Enforced(cfg, View(s), e)
  {
    hide Windows.Rate, Payouts.Restate, Port.ResultsOf, Attention.CheckFlags;
    ResultsView(s.checks, e);
    assert View(Attention.Enforce(cfg, s, e)).experts == Port.Enforced(cfg, View(s), e).experts;
  }

  lemma CheckedView(cfg: Settings, s: State, t: TaskId, g: GradeId)
    requires t < |s.tasks| && g < |s.grades| && s.grades[g].expert < |s.experts|
    requires Grading.Checked(cfg, s, t, g).moves == s.moves
    ensures View(Grading.Checked(cfg, s, t, g)) == Port.Checked(cfg, View(s), t, g, s.grades[g].expert)
  {
    hide Attention.Enforce, Calibration.Update, Port.Enforced, Attention.MaxDeviation, DecisionOf;
    var e := s.grades[g].expert;
    var check := Attention.CheckOf(cfg, s.tasks[t], g, s.grades[g]);
    if check.Some? {
      var s1 := s.(checks := s.checks + [check.value]);
      assert View(s1).results == View(s).results + [ViewCheck(check.value)];
      EnforceView(cfg, s1, e);
      UpdateView(cfg, if check.value.passed then s1 else Attention.Enforce(cfg, s1, e), e);
    }
  }

  lemma RecordedView(s: State, now: int, e: ExpertId, t: TaskId, scores: ScoreSheet)
    requires Linked(s) && ReviewsLinked(s.grades, s.reviews) && t < |s.tasks| && |s.rubrics| == 1
    requires Grading.ValidScores(s.rubrics[0].criteria, scores) && Grading.ScoredRubric(s.tasks[t]) == 0
    ensures View(Grading.Recorded(s, now, e, t, scores))
         == View(s).(grades := View(s).grades + [Port.NewGrade(View(s), 1000 * now, e, t, scores)],
                     tasks := View(s).tasks[t := Port.GradedRow(View(s).tasks[t])])
  {
    hide Scores.Weighted, Grading.ValidScores;
    var s1 := Grading.Recorded(s, now, e, t, scores);
    Undecided(s.reviews, |s.grades|);
    assert View(s1).grades == View(s).grades + [Port.NewGrade(View(s), 1000 * now, e, t, scores)];
    assert View(s1).tasks == View(s).tasks[t := Port.GradedRow(View(s).tasks[t])];
  }

  /** With one grader a completed task has one grade in play, and no round is opened. */
  lemma NoNewRound(cfg: Settings, s: State, clock: int, now: int, e: ExpertId, t: TaskId, scores: ScoreSheet)
    requires Shared(cfg, s, clock) && t < |s.tasks| && s.tasks[t].status == Assigned && s.tasks[t].holder == Some(e)
    requires Grading.ValidScores(s.rubrics[0].criteria, scores)
    ensures Grading.ScoredRubric(s.tasks[t]) == 0
    ensures var s1 := Grading.Recorded(s, now, e, t, scores);
            s1.tasks[t].status == Submitted ==> Consensus.Evaluate(cfg, s1, t) == Ok(s1)
  {
    hide Grading.ValidScores, Scores.Weighted, Consensus.NewRound;
    assert SharedTask(s, s.tasks[t]);
    RecordedEntries(s, now, e, t, scores, t);
    assert TaskOk(cfg, s.tasks[t], TaskEntries(s, t), RoundOf(s.rounds, t));
    var s1 := Grading.Recorded(s, now, e, t, scores);
    if s1.tasks[t].status == Submitted {
      var es := TaskEntries(s1, t);
      assert es[..|es| - 1] == TaskEntries(s, t);
      Statuses.UnrejectedOne(es);
    }
  }

  lemma SubmitView(cfg: Settings, s: State, clock: int, now: int, e: ExpertId, t: TaskId, scores: ScoreSheet)
    requires Shared(cfg, s, clock) && e < |s.experts| && Linked(s)
    requires NoMove(s, Grading.Submit(cfg, s, now, e, t, scores, None))
    ensures match Grading.Submit(cfg, s, now, e, t, scores, None)
            case Ok(s') => Port.Submit(cfg, View(s), 1000 * now, e, t, scores) == Ok(View(s'))
            case Err(error) => Port.Submit(cfg, View(s), 1000 * now, e, t, scores) == Err(error)
  {
    hide Inv, Grading.ValidScores, Consensus.Evaluate, Grading.Checked, Port.Checked, Grading.Recorded;
    SharedLinked(cfg, s, clock);
    if t < |s.tasks| && s.tasks[t].status == Assigned && s.tasks[t].holder == Some(e) {
      assert SharedTask(s, s.tasks[t]);
      if Grading.ValidScores(s.rubrics[0].criteria, scores) {
        NoNewRound(cfg, s, clock, now, e, t, scores);
        RecordedView(s, now, e, t, scores);
        var s1 := Grading.Recorded(s, now, e, t, scores);
        RecordedGrade(s, now, e, t, scores);
        assert Grading.Submit(cfg, s, now, e, t, scores, None) == Ok(Grading.Checked(cfg, s1, t, |s.grades|));
        CheckedView(cfg, s1, t, |s.grades|);
      }
    }
  }

  /**
   * Outside the domain, an expert who claimed a graded task by id: the service aborts on its constraint, the port
   * accepts.
   */
  lemma RepeatDiverges(cfg: Settings, s: State, now: int, e: ExpertId, t: TaskId, scores: ScoreSheet)
    requires Linked(s) && |s.rubrics| == 1 && e < |s.experts| && t < |s.tasks| && SharedTask(s, s.tasks[t])
    requires s.tasks[t].status == Assigned && s.tasks[t].holder == Some(e) && HasGraded(s.grades, t, e)
    requires Grading.ValidScores(s.rubrics[0].criteria, scores)
    ensures Grading.Submit(cfg, s, now, e, t, scores, None) == Err(Integrity)
    ensures Port.Submit(cfg, View(s), 1000 * now, e, t, scores).Ok?
  {
    hide Grading.ValidScores, Port.Checked, Grading.Checked, Scores.Weighted;
  }

  /** A queued task the expert has graded leads there by one claim by name, in the service and in the port alike. */
  lemma RepeatAfterClaim(cfg: Settings, s: State, clock: int, now: int, later: int, e: ExpertId, t: TaskId,
                         scores: ScoreSheet)
    requires Shared(cfg, s, clock) && e < |s.experts| && s.experts[e].status == Active && t < |s.tasks|
    requires s.tasks[t].status == Queued && HasGraded(s.grades, t, e) && s.tasks[t].tags * s.experts[e].tags != {}
    requires Rank(s.tasks[t].minTier) <= Rank(s.experts[e].tier)
    requires Grading.ValidScores(s.rubrics[0].criteria, scores)
    ensures Routing.ClaimById(cfg, s, now, e, t).Ok?
    ensures var s1 := Routing.ClaimById(cfg, s, now, e, t).value;
            && Inv(cfg, s1, clock) && e < |s1.experts|
            && Port.ClaimById(cfg, View(s), 1000 * now, e, t, false) == (View(s1), None)
            && Grading.Submit(cfg, s1, later, e, t, scores, None) == Err(Integrity)
            && Port.Submit(cfg, View(s1), 1000 * later, e, t, scores).Ok?
  {
    hide TasksOk, HasGraded, Grading.ValidScores, Routing.Eligible, Grading.Submit, Port.Submit;
    Queue.NamedClaimAgain(cfg, s, now, e, t);
    ReclaimInv(cfg, s, clock, now);
    var s0 := Routing.ReclaimExpired(s, now);
    assert s0.tasks[t] == s.tasks[t];
    ReclaimView(s, now);
    AssignInv(cfg, s0, clock, now, t, e);
    AssignView(cfg, s0, now, t, e);
    assert SharedTask(s, s.tasks[t]);
    RepeatDiverges(cfg, Routing.Assign(cfg, s0, now, t, e), later, e, t, scores);
  }

  /**
   * Every accepted submission on a golden task leads to such a task: it is queued again with the expert's grade on it.
   */
  lemma GoldenGoesBack(cfg: Settings, s: State, s': State, clock: int, now: int, e: ExpertId, t: TaskId,
                       scores: ScoreSheet)
    requires Shared(cfg, s, clock) && e < |s.experts| && Linked(s) && t < |s.tasks| && s.tasks[t].golden
    requires Grading.Submit(cfg, s, now, e, t, scores, None) == Ok(s')
    ensures |s'.tasks| == |s.tasks| && s'.tasks[t].status == Queued && HasGraded(s'.grades, t, e)
  {
    hide Grading.Submit, Grading.ValidScores, Consensus.NewRound;
    SubmitRows(cfg, s, s', now, e, t, scores, None);
    assert s'.grades[|s.grades|].task == t && s'.grades[|s.grades|].expert == e;
  }

  lemma RecordedGrade(s: State, now: int, e: ExpertId, t: TaskId, scores: ScoreSheet)
    requires Linked(s) && t < |s.tasks|
    requires Grading.ValidScores(s.rubrics[Grading.ScoredRubric(s.tasks[t])].criteria, scores)
    ensures var s1 := Grading.Recorded(s, now, e, t, scores);
            |s1.grades| == |s.grades| + 1 && s1.grades[|s.grades|].expert == e && s1.experts == s.experts
            && |s1.tasks| == |s.tasks| && s1.moves == s.moves
  {
  }

  lemma SharedLinked(cfg: Settings, s: State, clock: int)
    requires Shared(cfg, s, clock)
    ensures Linked(s) && ReviewsLinked(s.grades, s.reviews)
  {
  }

  // ----- reviews, payouts, reinstatement -----------------------------------------------------------------

  /** The payout of an approval has a rate: the expert's own, or a card for their tier. */
  predicate Rated(s: State, g: GradeId) {
    g < |s.grades| && s.grades[g].expert < |s.experts| && s.grades[g].task < |s.tasks|
    && Payouts.RateFor(s.cards, s.experts[s.grades[g].expert], s.tasks[s.grades[g].task].kind).Ok?
  }

  lemma ReviewedGrades(grades: seq<Grade>, reviews: seq<Review>, r: Review)
    requires r.grade < |grades|
    ensures ViewGrades(grades, reviews + [r])
         == ViewGrades(grades, reviews)[r.grade := ViewGrades(grades, reviews)[r.grade].(review := Some(r.decision))]
  {
    var was := ViewGrades(grades, reviews);
    forall g | 0 <= g < |grades|
      ensures ViewGrades(grades, reviews + [r])[g] == was[r.grade := was[r.grade].(review := Some(r.decision))][g]
    {
      DecisionAppend(reviews, r, g);
    }
  }

  lemma PaidView(s: State, g: GradeId)
    requires Linked(s) && g < |s.grades| && Rated(s, g)
    ensures Payouts.CreateForGrade(s, g, 1.0).Ok?
    ensures var s' := Payouts.CreateForGrade(s, g, 1.0).value;
            Port.Paid(View(s), g) == Ok(s'.payouts) && s' == s.(payouts := s'.payouts)
  {
    hide DecisionOf;
    var rate := Payouts.RateFor(s.cards, s.experts[s.grades[g].expert], s.tasks[s.grades[g].task].kind).value;
    FullRate(rate);
    assert Port.HasPayout(s.payouts, g) == HasPayout(s.payouts, g);
  }

  lemma FullRate(rate: int)
    ensures Rounding.RoundHalfEven(Payouts.Exact(rate, 1.0)) == rate
  {
    assert rate as real * 1.0 == rate as real;
    assert (rate as real).Floor == rate;
  }

  lemma ReviewedRowView(task: Task, d: Decision)
    ensures ViewTask(Grading.ReviewedRow(task, d)) == Port.ReviewedRow(ViewTask(task), d)
  {
  }

  lemma ReviewView(cfg: Settings, s: State, clock: int, now: int, g: GradeId, d: Decision)
    requires Shared(cfg, s, clock) && Linked(s) && (d == Approve && g < |s.grades| ==> Rated(s, g))
    requires NoMove(s, Grading.ReviewGrade(cfg, s, now, g, d))
    ensures match Grading.ReviewGrade(cfg, s, now, g, d)
            case Ok(s') => Port.Review(View(s), g, d) == (View(s'), None)
            case Err(error) => Port.Review(View(s), g, d) == (View(s), Some(error))
  {
    hide Inv, Calibration.Update, Port.Paid, Payouts.CreateForGrade, Grading.ReviewedRow, Port.ReviewedRow;
    SharedLinked(cfg, s, clock);
    if g < |s.grades| && DecisionOf(s.reviews, g) == None {
      var t := s.grades[g].task;
      assert SharedTask(s, s.tasks[t]);
      var s1 := s.(reviews := s.reviews + [Review(g, d, now)]);
      ReviewedGrades(s.grades, s.reviews, Review(g, d, now));
      var p1 := View(s).(grades := View(s).grades[g := View(s).grades[g].(review := Some(d))]);
      assert View(s1) == p1;
      var s2 := s1;
      if d == Approve {
        assert Rated(s1, g);
        PaidView(s1, g);
        s2 := Payouts.CreateForGrade(s1, g, 1.0).value;
      }
      var s3 := s2.(tasks := s2.tasks[t := Grading.ReviewedRow(s2.tasks[t], d)]);
      ReviewedRowView(s2.tasks[t], d);
      assert View(s3).tasks == View(s2).tasks[t := Port.ReviewedRow(View(s2).tasks[t], d)];
      NoRounds(cfg, s, clock);
      UpdateView(cfg, s3, s3.grades[g].expert);
    }
  }

  lemma ReinstateView(s: State, e: ExpertId)
    requires e < |s.experts| && s.experts[e].status == Paused
    ensures Experts.SetStatus(s, e, Active).Ok?
    ensures View(Experts.SetStatus(s, e, Active).value) == Port.Reinstated(View(s), e)
  {
    hide Payouts.Restate;
    var s' := Experts.SetStatus(s, e, Active).value;
    assert ViewExperts(s'.experts) == ViewExperts(s.experts)[e := ViewExpert(s'.experts[e])];
  }

  lemma CloseView(s: State, name: string)
    ensures match Payouts.ClosePeriod(s, name)
            case Ok(s') => Port.ClosePeriod(View(s), name) == Ok(View(s'))
            case Err(error) => Port.ClosePeriod(View(s), name) == Err(error)
  {
  }

  // ----- delivery ----------------------------------------------------------------------------------------

  lemma {:induction false} SelectedView(cfg: Settings, s: State, n: nat)
    requires Linked(s) && s.rounds == map[] && n <= |s.grades|
    ensures Port.Selected(View(s), n) == Delivery.Selected(s, n)
  {
    if n > 0 {
      SelectedView(cfg, s, n - 1);
    }
  }

  lemma {:induction false} InsertRowView(s: State, g: GradeId, rows: seq<GradeId>)
    requires g < |s.grades| && Delivery.Bounded(rows, |s.grades|)
    ensures Port.InsertRow(View(s).grades, g, rows) == Delivery.InsertRow(s.grades, g, rows)
  {
    hide DecisionOf;
    if rows != [] && !Delivery.RowBefore(s.grades, g, rows[0]) {
      InsertRowView(s, g, rows[1..]);
    }
  }

  lemma {:induction false} SortedRowsView(s: State, ids: seq<GradeId>)
    requires Delivery.Bounded(ids, |s.grades|)
    ensures Port.SortedRows(View(s).grades, ids) == Delivery.SortRows(s.grades, ids)
  {
    hide DecisionOf;
    if ids != [] {
      SortedRowsView(s, ids[1..]);
      InsertRowView(s, ids[0], Delivery.SortRows(s.grades, ids[1..]));
    }
  }

  lemma {:induction false} MaxVersionView(deliveries: seq<Model.Delivery>)
    ensures Port.MaxVersion(ViewDeliveries(deliveries)) == Delivery.MaxVersion(deliveries)
  {
    if deliveries != [] {
      MaxVersionView(deliveries[..|deliveries| - 1]);
      assert ViewDeliveries(deliveries)[..|deliveries| - 1] == ViewDeliveries(deliveries[..|deliveries| - 1]);
    }
  }

  /** The port's export is the service's, row for row. */
  lemma ExportView(cfg: Settings, s: State, clock: int)
    requires Shared(cfg, s, clock)
    ensures Linked(s) && View(Delivery.Export(cfg, s)) == Port.Export(View(s))
  {
    hide TasksOk, GradesOk, ReviewsOk, DecisionOf, Port.Selected, Port.SortedRows, Delivery.Selected,
      Delivery.SortRows, Port.MaxVersion, Delivery.MaxVersion, Delivery.RowValues, ViewExperts, ViewTasks, ViewGrades;
    NoRounds(cfg, s, clock);
    SelectedView(cfg, s, |s.grades|);
    SortedRowsView(s, Delivery.Selected(s, |s.grades|));
    MaxVersionView(s.deliveries);
    var d := Delivery.NewDelivery(cfg, s);
    assert ViewDeliveries(s.deliveries + [d]) == ViewDeliveries(s.deliveries) + [Port.Delivery(d.version, d.rows)];
  }
}
