/** A run after which the guard has not paused an expert whose rolling rate is too low: two failures, then a pass. */
module Unguarded {
  import opened Wrappers
  import opened Model
  import opened Tables
  import opened Invariant
  import opened Runs
  import opened Ledger
  import opened Guard
  import Attention
  import Grading
  import Routing
  import Scores
  import Service
  import Windows

  const CRITERIA: seq<Criterion> := [Criterion("k", 1.0, 1, 5)]
  const EXPECTED: seq<(Key, real)> := [("k", 5.0)]
  const GOLDEN: Service.TaskInput := Service.TaskInput({"x"}, "default", Junior, 0, 0, None, 1, true, EXPECTED)
  const FAIL: ScoreSheet := map["k" := 1.0]
  const PASS: ScoreSheet := map["k" := 5.0]

  /** One expert, three golden tasks they may take. */
  const SEED: seq<Request> := [
    Request(0, Service.CreateRubric("r", 1, CRITERIA)), Request(0, Service.CreateExpert({"x"}, Junior, None)),
    Request(0, Service.CreateTask(GOLDEN)), Request(0, Service.CreateTask(GOLDEN)),
    Request(0, Service.CreateTask(GOLDEN))]

  function Turn(t: TaskId, scores: ScoreSheet): (rs: seq<Request>) {
    [Request(0, Service.ClaimById(0, t)), Request(0, Service.Submit(0, t, scores, None))]
  }

  function Requests(): (rs: seq<Request>) {
    SEED + Turn(0, FAIL) + Turn(1, FAIL) + Turn(2, PASS)
  }

  /** A golden task of the example, waiting in the queue. */
  predicate Waiting(task: Task) {
    && task.golden && task.status == Queued && task.tags == {"x"} && task.minTier == Junior
    && task.rubric == 0 && (task.pinned.Some? ==> task.pinned.value == 0) && task.expected == EXPECTED
  }

  /** The expert is active with these results, newest first, one for each of the first tasks. */
  ghost predicate Stage(s: State, flags: seq<bool>) {
    && |s.experts| == 1 && s.experts[0].tags == {"x"} && s.experts[0].status == Active
    && s.rubrics == [Rubric("r", 1, CRITERIA, None)]
    && |s.tasks| == 3 && (forall t | 0 <= t < 3 :: Waiting(s.tasks[t]))
    && Attention.CheckFlags(s.checks, 0) == flags
    && (forall t | |flags| <= t < 3 :: !HasGraded(s.grades, t, 0))
  }

  predicate Defaults(cfg: Settings) {
    && cfg.attentionMinChecks == 3 && 3 <= cfg.attentionWindow && 0.0 <= cfg.attentionTolerance < 4.0
    && 1.0 / 3.0 < cfg.attentionThreshold
  }

  lemma RunOne(cfg: Settings, w: World, rs: seq<Request>, r: Request)
    requires Sound(cfg, w)
    ensures Run(cfg, w, rs + [r]) == Step(cfg, Run(cfg, w, rs), r)
  {
    hide Sound, Step;
    assert (rs + [r])[..|rs|] == rs;
  }

  // ----- seeding -----------------------------------------------------------------------------------

  /** The tables the seeding leaves. */
  function SeedState(): (s: State) {
    var task := Service.NewTask(GOLDEN);
    EMPTY.(rubrics := [Rubric("r", 1, CRITERIA, None)], experts := [Expert({"x"}, Junior, None, Active, 0, None, 0)],
           tasks := [task, task, task])
  }

  lemma SeedStage()
    ensures Stage(SeedState(), [])
  {
  }

  lemma SeedRun(cfg: Settings)
    ensures Sound(cfg, START) && Run(cfg, START, SEED).state == SeedState()
  {
    hide Sound, Step, Run;
    StartSound(cfg);
    var r0, r1, r2 := SEED[0], SEED[1], SEED[2];
    RunNone(cfg, START);
    RunOne(cfg, START, [], r0);
    RunOne(cfg, START, [r0], r1);
    RunOne(cfg, START, [r0, r1], r2);
    RunOne(cfg, START, [r0, r1, r2], r2);
    RunOne(cfg, START, [r0, r1, r2, r2], r2);
    assert SEED == [r0, r1, r2, r2] + [r2];
    assert [] + [r0] == [r0] && [r0] + [r1] == [r0, r1] && [r0, r1] + [r2] == [r0, r1, r2]
        && [r0, r1, r2] + [r2] == [r0, r1, r2, r2];
    SeedSteps(cfg);
  }

  lemma Seeded(cfg: Settings)
    ensures Sound(cfg, START) && Stage(Run(cfg, START, SEED).state, [])
  {
    hide Sound, Step, Run, Stage, SeedState;
    SeedRun(cfg);
    SeedStage();
  }

  lemma RunNone(cfg: Settings, w: World)
    requires Sound(cfg, w)
    ensures Run(cfg, w, []) == w
  {
  }

  lemma SeedSteps(cfg: Settings)
    ensures var s1 := EMPTY.(rubrics := [Rubric("r", 1, CRITERIA, None)]);
            var s2 := s1.(experts := [Expert({"x"}, Junior, None, Active, 0, None, 0)]);
            var task := Service.NewTask(GOLDEN);
            && Step(cfg, START, SEED[0]) == World(s1, 1)
            && Step(cfg, World(s1, 1), SEED[1]) == World(s2, 2)
            && Step(cfg, World(s2, 2), SEED[2]) == World(s2.(tasks := [task]), 3)
            && Step(cfg, World(s2.(tasks := [task]), 3), SEED[2]) == World(s2.(tasks := [task, task]), 4)
            && Step(cfg, World(s2.(tasks := [task, task]), 4), SEED[2]) == World(s2.(tasks := [task, task, task]), 5)
  {
  }

  // ----- one golden task graded -------------------------------------------------------------------------

  lemma ClaimTurn(cfg: Settings, s: State, now: int, flags: seq<bool>)
    requires Linked(s) && Stage(s, flags) && |flags| < 3
    ensures Service.Apply(cfg, s, now, Service.ClaimById(0, |flags|)) == Ok(Routing.Assign(cfg, s, now, |flags|, 0))
  {
    hide Attention.CheckFlags, HasGraded;
    assert Routing.ReclaimRows(s.tasks, now) == s.tasks;
    assert Routing.ReclaimExpired(s, now) == s;
    assert "x" in s.tasks[|flags|].tags * s.experts[0].tags;
  }

  lemma ScoresValid(scores: ScoreSheet)
    requires scores == FAIL || scores == PASS
    ensures Grading.ValidScores(CRITERIA, scores)
    ensures Attention.MaxDeviation(EXPECTED, scores) == if scores == PASS then 0.0 else 4.0
  {
    assert Grading.CriterionKeys(CRITERIA) == {"k"} by {
      assert CRITERIA[0].key == "k";
      assert forall c <- CRITERIA :: c == CRITERIA[0];
    }
    assert EXPECTED[1..] == [];
    assert FAIL["k"] == 1.0 && PASS["k"] == 5.0;
  }

  /** The check of the graded task: passed exactly for the good scores. */
  lemma TurnCheck(cfg: Settings, s: State, now: int, t: TaskId, scores: ScoreSheet)
    requires Defaults(cfg) && Linked(s) && t < |s.tasks| && (scores == FAIL || scores == PASS)
    requires s.rubrics == [Rubric("r", 1, CRITERIA, None)]
    requires s.tasks[t].golden && s.tasks[t].expected == EXPECTED && s.tasks[t].pinned == Some(0)
    ensures Grading.ValidScores(s.rubrics[Grading.ScoredRubric(s.tasks[t])].criteria, scores)
    ensures var check := SubmittedCheck(cfg, s, now, 0, t, scores);
            check.Some? && check.value.passed == (scores == PASS)
  {
    hide Grading.ValidScores, Attention.MaxDeviation, Scores.Weighted;
    ScoresValid(scores);
  }

  lemma SubmitTurn(cfg: Settings, s: State, now: int, later: int, flags: seq<bool>, scores: ScoreSheet)
    requires Defaults(cfg) && Linked(s) && Stage(s, flags) && |flags| < 3 && (scores == FAIL || scores == PASS)
    requires scores == PASS || |flags| < 2
    ensures var s1 := Routing.Assign(cfg, s, now, |flags|, 0);
            && Linked(s1)
            && var r := Service.Apply(cfg, s1, later, Service.Submit(0, |flags|, scores, None));
               r.Ok? && Stage(r.value, [scores == PASS] + flags)
  {
    hide Attention.CheckFlags, Grading.ValidScores, Scores.Weighted, Grading.Checked, Grading.Submit,
      Attention.CheckOf, SubmittedCheck, HasGraded;
    var t, s1 := |flags|, Routing.Assign(cfg, s, now, |flags|, 0);
    TurnCheck(cfg, s1, later, t, scores);
    SubmitOk(cfg, s1, later, t, scores);
    var s2 := Grading.Submit(cfg, s1, later, 0, t, scores, None).value;
    SubmitRows(cfg, s1, s2, later, 0, t, scores, None);
    StillActive(cfg, s1, s2, later, t, scores, flags);
    forall u | t < u < 3 ensures !HasGraded(s2.grades, u, 0) {
      Ungraded(s.grades, s2.grades[|s.grades|], u);
      assert s2.grades == s.grades + [s2.grades[|s.grades|]];
    }
  }

  lemma Ungraded(grades: seq<Grade>, g: Grade, t: TaskId)
    requires g.task != t && !HasGraded(grades, t, 0)
    ensures !HasGraded(grades + [g], t, 0)
  {
  }

  lemma StillActive(cfg: Settings, s: State, s': State, now: int, t: TaskId, scores: ScoreSheet, flags: seq<bool>)
    requires Defaults(cfg) && Linked(s) && |s.experts| > 0 && s.experts[0].status == Active
    requires Grading.Submit(cfg, s, now, 0, t, scores, None) == Ok(s')
    requires t < |s.tasks| && Grading.ValidScores(s.rubrics[Grading.ScoredRubric(s.tasks[t])].criteria, scores)
    requires var check := SubmittedCheck(cfg, s, now, 0, t, scores);
             check.Some? && check.value.passed == (scores == PASS)
    requires Attention.CheckFlags(s.checks, 0) == flags && (scores == PASS || |flags| < 2)
    ensures |s'.experts| == |s.experts| && s'.experts[0].status == Active && s'.experts[0].tags == s.experts[0].tags
    ensures Attention.CheckFlags(s'.checks, 0) == [scores == PASS] + flags
  {
    hide Attention.CheckFlags, Grading.ValidScores, Grading.Submit, Attention.CheckOf;
    SubmitGuarded(cfg, s, s', now, 0, t, scores, None);
    var check := SubmittedCheck(cfg, s, now, 0, t, scores).value;
    FlagsAppend(s.checks, check, 0);
    if !check.passed {
      TooFew(cfg, s.checks + [check]);
    }
  }

  lemma SubmitOk(cfg: Settings, s: State, now: int, t: TaskId, scores: ScoreSheet)
    requires Linked(s) && |s.experts| > 0 && t < |s.tasks| && s.tasks[t].golden
    requires s.tasks[t].status == Assigned && s.tasks[t].holder == Some(0) && !HasGraded(s.grades, t, 0)
    requires Grading.ValidScores(s.rubrics[Grading.ScoredRubric(s.tasks[t])].criteria, scores)
    ensures Grading.Submit(cfg, s, now, 0, t, scores, None).Ok?
  {
    hide Grading.ValidScores, HasGraded, Grading.Checked;
  }

  lemma TooFew(cfg: Settings, checks: seq<Check>)
    requires Defaults(cfg) && |Attention.CheckFlags(checks, 0)| < 3
    ensures !Attention.Trips(cfg, checks, 0)
  {
  }

  lemma TurnStage(cfg: Settings, w: World, flags: seq<bool>, scores: ScoreSheet)
    requires Sound(cfg, w) && Defaults(cfg) && Stage(w.state, flags) && |flags| < 3
    requires (scores == FAIL && |flags| < 2) || scores == PASS
    ensures Stage(Run(cfg, w, Turn(|flags|, scores)).state, [scores == PASS] + flags)
  {
    hide Sound, Stage, Service.Apply, Routing.Assign, Defaults, Linked;
    var claim, submit := Turn(|flags|, scores)[0], Turn(|flags|, scores)[1];
    SoundLinked(cfg, w);
    StageTag(w.state, flags);
    ClaimTurn(cfg, w.state, w.clock + 1, flags);
    SubmitTurn(cfg, w.state, w.clock + 1, w.clock + 2, flags, scores);
    assert Step(cfg, w, claim) == World(Routing.Assign(cfg, w.state, w.clock + 1, |flags|, 0), w.clock + 1);
    RunNone(cfg, w);
    RunOne(cfg, w, [], claim);
    RunOne(cfg, w, [claim], submit);
    assert [] + [claim] == [claim] && [claim] + [submit] == Turn(|flags|, scores);
  }

  lemma StageTag(s: State, flags: seq<bool>)
    requires Stage(s, flags)
    ensures |s.experts| == 1 && |s.tasks| == 3
  {
  }

  lemma SoundLinked(cfg: Settings, w: World)
    requires Sound(cfg, w)
    ensures Linked(w.state)
  {
  }

  // ----- the run -------------------------------------------------------------------------------------------

  lemma {:induction false} RunAppend(cfg: Settings, w: World, a: seq<Request>, b: seq<Request>)
    requires Sound(cfg, w)
    ensures Run(cfg, w, a + b) == Run(cfg, Run(cfg, w, a), b)
  {
    hide Sound, Step;
    if b == [] {
      assert a + b == a;
      RunNone(cfg, Run(cfg, w, a));
    } else {
      var front, last := b[..|b| - 1], b[|b| - 1];
      RunAppend(cfg, w, a, front);
      RunOne(cfg, w, a + front, last);
      RunOne(cfg, Run(cfg, w, a), front, last);
      assert a + b == (a + front) + [last] && b == front + [last];
    }
  }

  lemma ThirdPassTrips(cfg: Settings, checks: seq<Check>)
    requires Defaults(cfg) && Attention.CheckFlags(checks, 0) == [true, false, false]
    ensures Attention.Trips(cfg, checks, 0) && PassedSinceMinimum(cfg, checks, 0)
  {
    var flags := Attention.CheckFlags(checks, 0);
    assert flags[1..] == [false, false] && flags[1..][1..] == [false];
    assert Windows.Agreeing([false]) == 0 && Windows.Agreeing([false, false]) == 0 && Windows.Agreeing(flags) == 1;
  }

  /**
   * Two failed checks and then a passed one that brings the total to the minimum of three: under settings like the
   * shipped ones no administrator has touched the expert, the rolling rate of a third is below the threshold, and the
   * expert is still active.
   */
  lemma ActiveBelowThreshold(cfg: Settings)
    requires Defaults(cfg)
    ensures Sound(cfg, START) && Untouched(Requests(), 0)
    ensures var s := Run(cfg, START, Requests()).state;
            0 < |s.experts| && s.experts[0].status == Active && Attention.Trips(cfg, s.checks, 0)
  {
    hide Sound, Run, Attention.Trips, SEED, Turn, Untouched;
    assert FAIL["k"] != PASS["k"];
    Seeded(cfg);
    var w0 := Run(cfg, START, SEED);
    TurnStage(cfg, w0, [], FAIL);
    var w1 := Run(cfg, w0, Turn(0, FAIL));
    TurnStage(cfg, w1, [false], FAIL);
    var w2 := Run(cfg, w1, Turn(1, FAIL));
    TurnStage(cfg, w2, [false, false], PASS);
    var w3 := Run(cfg, w2, Turn(2, PASS));
    RunAppend(cfg, START, SEED, Turn(0, FAIL));
    RunAppend(cfg, START, SEED + Turn(0, FAIL), Turn(1, FAIL));
    RunAppend(cfg, START, SEED + Turn(0, FAIL) + Turn(1, FAIL), Turn(2, PASS));
    assert [FAIL == PASS] + [] == [false] && [false] + [false] == [false, false];
    ThirdPassTrips(cfg, w3.state.checks);
    NoStatusRequest();
  }

  lemma NoStatusRequest()
    ensures Untouched(Requests(), 0)
  {
  }
}
