/** Rubric versions over time: which tasks follow the newest one, and which stay behind. */
module Versions {
  import opened Wrappers
  import opened Model
  import opened Tables
  import opened TaskInvariant
  import opened Invariant
  import Calibration
  import Scores
  import Routing
  import Grading
  import Consensus
  import Rubrics
  import Service

  /** A task that was never assigned waits in the queue without a grade. */
  lemma UntouchedQueued(cfg: Settings, task: Task, es: seq<Scores.Entry>, round: Option<Round>)
    requires TaskOk(cfg, task, es, round) && task.history == []
    ensures task.status == Queued && task.received == 0
  {
    assert Authors(es) == [];
    assert |Authors(es)| == |es|;
  }

  /** A task that was never assigned is on a rubric version that is not superseded. */
  ghost predicate UntouchedCurrent(s: State) {
    forall t | 0 <= t < |s.tasks| && s.tasks[t].history == [] ::
      s.tasks[t].rubric < |s.rubrics| && s.rubrics[s.tasks[t].rubric].supersededBy == None
  }

  lemma PublishCurrent(cfg: Settings, s: State, clock: int, previous: RubricId, criteria: seq<Criterion>)
    requires Inv(cfg, s, clock) && UntouchedCurrent(s) && Rubrics.Publish(s, previous, criteria).Ok?
    ensures UntouchedCurrent(Rubrics.Publish(s, previous, criteria).value)
  {
    hide TaskOk, Entries, Rubrics.LatestVersion;
    var s' := Rubrics.Publish(s, previous, criteria).value;
    forall t | 0 <= t < |s'.tasks| && s'.tasks[t].history == []
      ensures s'.tasks[t].rubric < |s'.rubrics| && s'.rubrics[s'.tasks[t].rubric].supersededBy == None
    {
      UntouchedQueued(cfg, s.tasks[t], TaskEntries(s, t), RoundOf(s.rounds, t));
    }
  }

  /** No task gets onto another version or changes its tags, and none loses its past. */
  ghost predicate VersionFrame(s: State, s': State) {
    && s'.rubrics == s.rubrics && |s'.tasks| == |s.tasks|
    && forall t | 0 <= t < |s.tasks| ::
         && s'.tasks[t].rubric == s.tasks[t].rubric && s'.tasks[t].tags == s.tasks[t].tags
         && (s'.tasks[t].history == [] ==> s.tasks[t].history == [])
  }

  lemma FrameCurrent(s: State, s': State)
    requires UntouchedCurrent(s) && VersionFrame(s, s')
    ensures UntouchedCurrent(s')
  {
  }

  lemma ClaimFrame(cfg: Settings, s: State, s': State, now: int, ev: Service.Event)
    requires Linked(s) && (ev.ClaimNext? || ev.ClaimById?) && Service.Apply(cfg, s, now, ev) == Ok(s')
    ensures VersionFrame(s, s')
  {
    hide Routing.Eligible, Routing.PickAmong, Routing.Expired, Routing.Choice;
  }

  lemma RouteFrame(cfg: Settings, s: State, s': State, now: int, ev: Service.Event)
    requires Linked(s) && Routes(ev) && Service.Apply(cfg, s, now, ev) == Ok(s')
    ensures VersionFrame(s, s')
  {
    hide Calibration.Update, Routing.Expired, Routing.ClaimNext, Routing.ClaimById;
    if ev.ClaimNext? || ev.ClaimById? {
      ClaimFrame(cfg, s, s', now, ev);
    }
  }

  lemma GradeFrame(cfg: Settings, s: State, s': State, now: int, ev: Service.Event)
    requires Linked(s) && Grades(ev) && Service.Apply(cfg, s, now, ev) == Ok(s')
    ensures VersionFrame(s, s')
  {
    hide Grading.Submit, Grading.ReviewGrade, Consensus.Resolve, Consensus.NewRound, Grading.ValidScores;
    match ev {
      case Submit(e, t, scores, given) => SubmitRows(cfg, s, s', now, e, t, scores, given);
      case ReviewGrade(g, d) => ReviewRows(cfg, s, s', now, g, d);
      case Resolve(t, delivered) => ResolveRows(cfg, s, s', now, t, delivered);
    }
  }

  lemma AcceptedCurrent(cfg: Settings, s: State, s': State, clock: int, now: int, ev: Service.Event)
    requires Inv(cfg, s, clock) && UntouchedCurrent(s) && Service.Apply(cfg, s, now, ev) == Ok(s')
    ensures UntouchedCurrent(s')
  {
    hide TaskOk, UntouchedCurrent;
    if ev.Publish? {
      PublishCurrent(cfg, s, clock, ev.previous, ev.criteria);
    } else if Creates(ev) {
      CreateCurrent(cfg, s, s', now, ev);
    } else {
      if Routes(ev) {
        RouteFrame(cfg, s, s', now, ev);
      } else if Grades(ev) {
        GradeFrame(cfg, s, s', now, ev);
      }
      FrameCurrent(s, s');
    }
  }

  lemma CreateCurrent(cfg: Settings, s: State, s': State, now: int, ev: Service.Event)
    requires Linked(s) && UntouchedCurrent(s) && Creates(ev) && !ev.Publish? && Service.Apply(cfg, s, now, ev) == Ok(s')
    ensures UntouchedCurrent(s')
  {
    hide Rubrics.Publish;
  }

  /** A task held while its version is superseded stays on that version when it is released, queued and ungraded. */
  lemma ReleasedStaysBehind(cfg: Settings, s: State, clock: int, now: int, later: int, t: TaskId, e: ExpertId,
        criteria: seq<Criterion>)
    requires Inv(cfg, s, clock) && t < |s.tasks| && s.tasks[t].holder == Some(e) && s.tasks[t].status == Assigned
    requires Service.Apply(cfg, s, now, Service.Publish(s.tasks[t].rubric, criteria)).Ok?
    ensures var s1 := Service.Apply(cfg, s, now, Service.Publish(s.tasks[t].rubric, criteria)).value;
            && Linked(s1) && Service.Apply(cfg, s1, later, Service.Release(e, t)).Ok?
            && var s2 := Service.Apply(cfg, s1, later, Service.Release(e, t)).value;
               && s2.tasks[t].status == Queued && s2.tasks[t].received == s.tasks[t].received
               && s2.tasks[t].rubric == s.tasks[t].rubric
               && s2.rubrics[s2.tasks[t].rubric].supersededBy == Some(|s.rubrics|)
  {
    hide TasksOk, Rubrics.LatestVersion;
    PublishKeeps(cfg, s, clock, s.tasks[t].rubric, criteria);
  }

  /** So does a single-grader task that is submitted at the publish and sent back to the queue after it. */
  lemma RejectedStaysBehind(cfg: Settings, s: State, clock: int, now: int, later: int, t: TaskId,
                            criteria: seq<Criterion>)
    returns (g: GradeId)
    requires Inv(cfg, s, clock) && t < |s.tasks| && !s.tasks[t].golden && s.tasks[t].required == 1
    requires s.tasks[t].status == Submitted
    requires Service.Apply(cfg, s, now, Service.Publish(s.tasks[t].rubric, criteria)).Ok?
    ensures var s1 := Service.Apply(cfg, s, now, Service.Publish(s.tasks[t].rubric, criteria)).value;
            && Linked(s1) && Service.Apply(cfg, s1, later, Service.ReviewGrade(g, Reject)).Ok?
            && var s2 := Service.Apply(cfg, s1, later, Service.ReviewGrade(g, Reject)).value;
               && |s2.tasks| == |s.tasks| && s2.tasks[t].status == Queued && s2.tasks[t].received == 0
               && s2.tasks[t].rubric == s.tasks[t].rubric && s2.tasks[t].rubric < |s2.rubrics|
               && s2.rubrics[s2.tasks[t].rubric].supersededBy == Some(|s.rubrics|)
  {
    hide Entries, Rubrics.LatestVersion, Calibration.Update;
    var s1 := Rubrics.Publish(s, s.tasks[t].rubric, criteria).value;
    PublishKeeps(cfg, s, clock, s.tasks[t].rubric, criteria);
    g := SubmittedGrade(cfg, s, clock, t);
    ReviewRows(cfg, s1, Grading.ReviewGrade(cfg, s1, later, g, Reject).value, later, g, Reject);
  }

  /** The one grade in play of a submitted single-grader task: its newest, not reviewed yet. */
  lemma SubmittedGrade(cfg: Settings, s: State, clock: int, t: TaskId) returns (g: GradeId)
    requires Inv(cfg, s, clock) && t < |s.tasks| && !s.tasks[t].golden && s.tasks[t].required == 1
    requires s.tasks[t].status == Submitted
    ensures g < |s.grades| && s.grades[g].task == t && DecisionOf(s.reviews, g) == None && s.tasks[t].received == 1
  {
    var es := TaskEntries(s, t);
    assert TaskOk(cfg, s.tasks[t], es, RoundOf(s.rounds, t));
    EntryIds(s.grades, s.reviews, t);
    g := es[|es| - 1].id;
    assert es[|es| - 1] in es;
  }

  // ----- who follows a publish --------------------------------------------------------------------------

  /** A publish supersedes its version and takes along exactly the queued tasks on it with nothing received. */
  lemma PublishTakes(s: State, r: RubricId, criteria: seq<Criterion>, t: TaskId)
    requires Rubrics.Publish(s, r, criteria).Ok? && t < |s.tasks| && r < |s.rubrics|
    ensures var s' := Rubrics.Publish(s, r, criteria).value;
            && |s'.tasks| == |s.tasks| && |s'.rubrics| == |s.rubrics| + 1
            && s'.rubrics[r].supersededBy == Some(|s.rubrics|)
            && (s.tasks[t].rubric == r ==>
                  s'.tasks[t].rubric
                  == if s.tasks[t].status == Queued && s.tasks[t].received == 0 then |s.rubrics| else r)
            && (s.tasks[t].rubric != r ==> s'.tasks[t].rubric == s.tasks[t].rubric)
  {
    hide Rubrics.LatestVersion;
  }

  /** No request moves a task onto or off a version that has been superseded, or makes it current again. */
  lemma SupersededStays(cfg: Settings, s: State, s': State, now: int, ev: Service.Event, r: RubricId, t: TaskId)
    requires Linked(s) && Service.Apply(cfg, s, now, ev) == Ok(s')
    requires r < |s.rubrics| && s.rubrics[r].supersededBy.Some? && t < |s.tasks|
    ensures r < |s'.rubrics| && s'.rubrics[r].supersededBy.Some? && t < |s'.tasks|
    ensures s'.tasks[t].rubric == r <==> s.tasks[t].rubric == r
  {
    hide Rubrics.Publish, Grading.Submit, Grading.ReviewGrade, Consensus.Resolve;
    if ev.Publish? {
      PublishedOther(s, ev.previous, ev.criteria, r);
      PublishTakes(s, ev.previous, ev.criteria, t);
    } else if Routes(ev) {
      RouteFrame(cfg, s, s', now, ev);
    } else if Grades(ev) {
      GradeFrame(cfg, s, s', now, ev);
    }
  }

  lemma PublishedOther(s: State, previous: RubricId, criteria: seq<Criterion>, r: RubricId)
    requires Rubrics.Publish(s, previous, criteria).Ok? && r < |s.rubrics| && s.rubrics[r].supersededBy.Some?
    ensures previous < |s.rubrics| && previous != r
    ensures var s' := Rubrics.Publish(s, previous, criteria).value; r < |s'.rubrics| && s'.rubrics[r] == s.rubrics[r]
  {
    hide Rubrics.LatestVersion;
  }

  // ----- the chain of versions ----------------------------------------------------------------------

  /**
   * No two versions of a name share a number; a superseded version points to a later one of its name with a larger
   * number.
   */
  ghost predicate ChainOk(rubrics: seq<Rubric>) {
    && (forall i, j :: 0 <= i < j < |rubrics| ==>
          rubrics[i].name != rubrics[j].name || rubrics[i].version != rubrics[j].version)
    && (forall i | 0 <= i < |rubrics| && rubrics[i].supersededBy.Some? ::
          var j := rubrics[i].supersededBy.value;
          i < j < |rubrics| && rubrics[j].name == rubrics[i].name && rubrics[j].version > rubrics[i].version)
  }

  lemma AppendChain(rubrics: seq<Rubric>, x: Rubric)
    requires ChainOk(rubrics) && x.supersededBy == None && !Rubrics.Taken(rubrics, x.name, x.version)
    ensures ChainOk(rubrics + [x])
  {
    forall i | 0 <= i < |rubrics| ensures rubrics[i].name != x.name || rubrics[i].version != x.version {
      assert rubrics[i] in rubrics;
    }
  }

  lemma SupersedeChain(rubrics: seq<Rubric>, i: RubricId, j: RubricId)
    requires ChainOk(rubrics) && i < j < |rubrics|
    requires rubrics[j].name == rubrics[i].name && rubrics[j].version > rubrics[i].version
    ensures ChainOk(rubrics[i := rubrics[i].(supersededBy := Some(j))])
  {
  }

  lemma PublishChain(s: State, previous: RubricId, criteria: seq<Criterion>)
    requires ChainOk(s.rubrics) && Rubrics.Publish(s, previous, criteria).Ok?
    ensures ChainOk(Rubrics.Publish(s, previous, criteria).value.rubrics)
  {
    hide ChainOk;
    var was, n := s.rubrics[previous], |s.rubrics|;
    assert was in s.rubrics;
    var next := Rubric(was.name, Rubrics.LatestVersion(s.rubrics, was.name).value + 1, criteria, None);
    AppendChain(s.rubrics, next);
    SupersedeChain(s.rubrics + [next], previous, n);
    assert Rubrics.Publish(s, previous, criteria).value.rubrics
        == (s.rubrics + [next])[previous := was.(supersededBy := Some(n))];
  }

  lemma CreateChain(s: State, name: string, version: int, criteria: seq<Criterion>)
    requires ChainOk(s.rubrics) && Rubrics.Create(s, name, version, criteria).Ok?
    ensures ChainOk(Rubrics.Create(s, name, version, criteria).value.rubrics)
  {
    hide ChainOk;
    AppendChain(s.rubrics, Rubric(name, version, criteria, None));
  }

  lemma AcceptedChain(cfg: Settings, s: State, s': State, now: int, ev: Service.Event)
    requires Linked(s) && ChainOk(s.rubrics) && Service.Apply(cfg, s, now, ev) == Ok(s')
    ensures ChainOk(s'.rubrics)
  {
    hide ChainOk, Rubrics.Publish, Rubrics.Create, Grading.Submit, Grading.ReviewGrade, Consensus.Resolve;
    if ev.Publish? {
      PublishChain(s, ev.previous, ev.criteria);
    } else if ev.CreateRubric? {
      CreateChain(s, ev.name, ev.version, ev.criteria);
    } else if Routes(ev) {
      RouteFrame(cfg, s, s', now, ev);
    } else if Grades(ev) {
      GradeFrame(cfg, s, s', now, ev);
    }
  }

  /**
   * Following the pointers from any version ends at a current version of the same name, no older than where it began.
   */
  ghost function Newest(rubrics: seq<Rubric>, r: RubricId): (n: RubricId)
    requires ChainOk(rubrics) && r < |rubrics|
    ensures n < |rubrics| && rubrics[n].supersededBy == None && rubrics[n].name == rubrics[r].name
    ensures r <= n && rubrics[n].version >= rubrics[r].version
    decreases |rubrics| - r
  {
    if rubrics[r].supersededBy == None then r else Newest(rubrics, rubrics[r].supersededBy.value)
  }
}
