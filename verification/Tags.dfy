/** The tags a delivered row prints are the tags the queue matched experts against. */
module Tags {
  import opened Wrappers
  import opened Model
  import opened Json
  import opened Tables
  import opened Invariant
  import opened Versions
  import opened Runs
  import Delivery
  import Numbers
  import Rows
  import Service
  import Consensus
  import Grading
  import Rubrics

  // ----- one text, one tag ----------------------------------------------------------------------------------

  function Codes(s: string): (r: seq<int>) {
    seq(|s|, i requires 0 <= i < |s| => s[i] as int)
  }

  lemma {:induction false} UnitsPoints(s: string)
    ensures Points(Units(s)) == Codes(s)
  {
    if s != [] {
      UnitsPoints(s[1..]);
      assert Codes(s) == [s[0] as int] + Codes(s[1..]);
      var c, rest := s[0] as int, Units(s[1..]);
      if c < 0x1_0000 {
        assert Units(s) == [c] + rest && Units(s)[1..] == rest;
      } else {
        assert Units(s)[2..] == rest;
      }
    }
  }

  /** Different tags have different texts. */
  lemma UnitsInjective(a: string, b: string)
    requires Units(a) == Units(b)
    ensures a == b
  {
    UnitsPoints(a);
    UnitsPoints(b);
    assert |Codes(a)| == |Codes(b)|;
    forall i | 0 <= i < |a| ensures a[i] == b[i] {
      assert Codes(a)[i] == Codes(b)[i];
    }
  }

  // ----- the list a row prints and the set the rules read ----------------------------------------------------

  /** The list of tags given with the task i holds exactly these. */
  predicate Given(cfg: Settings, i: TaskId, tags: set<Tag>) {
    (set x <- cfg.columns.task(i).tags) == (set tag <- tags :: Units(tag))
  }

  ghost predicate TagsGiven(cfg: Settings, s: State) {
    forall t | 0 <= t < |s.tasks| :: Given(cfg, t, s.tasks[t].tags)
  }

  /** Tasks are only added, and none changes its tags. */
  ghost predicate TagsKept(s: State, s': State) {
    |s.tasks| <= |s'.tasks| && forall t | 0 <= t < |s.tasks| :: s'.tasks[t].tags == s.tasks[t].tags
  }

  lemma AcceptedTags(cfg: Settings, s: State, s': State, now: int, ev: Service.Event)
    requires Linked(s) && Service.Apply(cfg, s, now, ev) == Ok(s')
    ensures TagsKept(s, s')
    ensures |s'.tasks| == |s.tasks| + if ev.CreateTask? then 1 else 0
    ensures ev.CreateTask? ==> s'.tasks[|s.tasks|].tags == ev.input.tags
  {
    hide Delivery.NewDelivery, Grading.Submit, Grading.ReviewGrade, Consensus.Resolve, Rubrics.LatestVersion;
    if Routes(ev) {
      RouteFrame(cfg, s, s', now, ev);
    } else if Grades(ev) {
      GradeFrame(cfg, s, s', now, ev);
    }
  }

  /** The task a request creates comes with its own tags. */
  ghost predicate InputGiven(cfg: Settings, w: World, r: Request) {
    r.event.CreateTask? ==> Given(cfg, |w.state.tasks|, r.event.input.tags)
  }

  lemma StepTags(cfg: Settings, w: World, r: Request)
    requires Sound(cfg, w) && TagsGiven(cfg, w.state) && InputGiven(cfg, w, r)
    ensures Linked(w.state) && TagsGiven(cfg, Step(cfg, w, r).state)
  {
    hide Sound, Service.Apply, Given;
    SoundInv(cfg, w);
    if Accepted(cfg, w, r) {
      AcceptedTags(cfg, w.state, Step(cfg, w, r).state, w.clock + 1 + r.wait, r.event);
    }
  }

  /** Along a run whose tasks come with their own tags, every row's list stays its set. */
  lemma {:induction false} RunTags(cfg: Settings, rs: seq<Request>)
    requires Sound(cfg, START)
    requires forall n | 0 <= n < |rs| :: InputGiven(cfg, Run(cfg, START, rs[..n]), rs[n])
    ensures TagsGiven(cfg, Run(cfg, START, rs).state)
  {
    hide Sound, Step, InputGiven, Given;
    if rs != [] {
      var front := rs[..|rs| - 1];
      forall n | 0 <= n < |front| ensures InputGiven(cfg, Run(cfg, START, front[..n]), front[n]) {
        assert front[..n] == rs[..n] && front[n] == rs[n];
      }
      RunTags(cfg, front);
      assert rs[..|rs| - 1] == front;
      StepTags(cfg, Run(cfg, START, front), rs[|rs| - 1]);
    }
  }

  /** The texts a row of the grade prints under its required tags. */
  function PrintedTags(rt: Numbers.Runtime, cfg: Settings, s: State, g: GradeId): (r: seq<Numbers.Text>)
    requires Linked(s) && g < |s.grades|
  {
    Rows.SortTexts(rt, Delivery.Contents(cfg, s, g).task.tags)
  }

  lemma SameTexts(a: seq<Numbers.Text>, b: seq<Numbers.Text>)
    requires multiset(a) == multiset(b)
    ensures (set x <- a) == (set x <- b)
  {
    assert forall x :: x in a <==> x in multiset(a);
    assert forall x :: x in b <==> x in multiset(b);
  }

  /** Sets of tags overlap exactly when a text of the one is the text of a tag of the other. */
  lemma Overlap(own: set<Tag>, tags: set<Tag>)
    ensures own * tags != {} <==> exists tag <- tags :: Units(tag) in (set x <- own :: Units(x))
  {
    hide Units;
    if own * tags != {} {
      var tag :| tag in own * tags;
      assert Units(tag) in (set x <- own :: Units(x));
    }
    if tag :| tag in tags && Units(tag) in (set x <- own :: Units(x)) {
      var x :| x in own && Units(x) == Units(tag);
      UnitsInjective(x, tag);
      assert tag in own * tags;
    }
  }

  /** An expert shares a tag with the task exactly when the row prints one of theirs. */
  lemma RowTags(rt: Numbers.Runtime, cfg: Settings, s: State, g: GradeId, tags: set<Tag>)
    requires Linked(s) && g < |s.grades| && TagsGiven(cfg, s)
    ensures LinkedGrade(s, s.grades[g])
    ensures var task, printed := s.tasks[s.grades[g].task], (set x <- PrintedTags(rt, cfg, s, g));
            && printed == (set tag <- task.tags :: Units(tag))
            && (task.tags * tags != {} <==> exists tag <- tags :: Units(tag) in printed)
  {
    hide Units, Rows.SortTexts, Delivery.ScoreList, Delivery.StoredDigits;
    assert LinkedGrade(s, s.grades[g]);
    var t := s.grades[g].task;
    SameTexts(PrintedTags(rt, cfg, s, g), cfg.columns.task(t).tags);
    assert Given(cfg, t, s.tasks[t].tags);
    Overlap(s.tasks[t].tags, tags);
  }
}
