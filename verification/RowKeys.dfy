/** What stands under each key of a delivered row: which column of which table. */
module RowKeys {
  import opened Wrappers
  import opened Model
  import opened Numbers
  import opened Json
  import opened Rows
  import opened Bodies
  import opened Tables
  import Delivery
  import Exports
  import Floats
  import Invariant
  import Picks
  import Port
  import Tags
  import Weighing

  /** The value under a key of an object. */
  function At(v: Json, key: string): (r: Maybe) {
    if v.Obj? then Lookup(v.fields, Units(key)) else Absent
  }

  function Text(s: string): (r: Maybe) {
    Found(Str(Units(s)))
  }

  // ----- any row ------------------------------------------------------------------------------------------

  lemma TaskKeys(rt: Runtime, c: Contents)
    ensures var v := Row(rt, c);
            && At(v, "task_id") == Found(Str(c.task.id))
            && At(v, "external_ref")
               == (match c.task.externalRef case None => Found(Null) case Some(text) => Found(Str(text)))
            && At(v, "task_type") == Text(c.kind)
            && At(v, "prompt") == Found(Str(c.task.prompt))
            && At(v, "responses") == Found(c.task.responses)
  {
    hide Units, RubricObject, ConsensusObject, ScoreFields, SortTexts, TextItems, FieldList, Ascii;
    RowNames(rt, c);
    NamesDistinct();
    var l := TaskFields(rt, c) + GradeFields(c);
    ListLookup(l, NAMES[0]);
    ListLookup(l, NAMES[1]);
    ListLookup(l, NAMES[2]);
    ListLookup(l, NAMES[4]);
    ListLookup(l, NAMES[5]);
  }

  lemma GradeKeys(rt: Runtime, c: Contents)
    ensures var v := Row(rt, c);
            && At(v, "rubric") == Found(RubricObject(c))
            && At(v, "expert_id") == Found(Str(c.expert))
            && At(v, "expert_tier") == Text(match c.tier
                                            case Junior => "junior" case Senior => "senior" case Lead => "lead")
            && At(v, "scores") == Found(Obj(ScoreFields(c.scores)))
            && At(v, "weighted_score") == Found(Num(Float(c.weighted)))
            && At(v, "rationale") == Found(Str(c.grade.rationale))
            && At(v, "time_spent_seconds") == Found(Num(Whole(c.grade.seconds)))
            && At(v, "consensus") == Found(ConsensusObject(c.consensus))
  {
    hide Units, RubricObject, ConsensusObject, ScoreFields, SortTexts, TextItems, FieldList, Ascii;
    RowNames(rt, c);
    NamesDistinct();
    var l := TaskFields(rt, c) + GradeFields(c);
    ListLookup(l, NAMES[6]);
    ListLookup(l, NAMES[7]);
    ListLookup(l, NAMES[8]);
    ListLookup(l, NAMES[9]);
    ListLookup(l, NAMES[10]);
    ListLookup(l, NAMES[11]);
    ListLookup(l, NAMES[12]);
    ListLookup(l, NAMES[13]);
  }

  /** The required tags are the list given, in the order of the runtime. */
  lemma TagKey(rt: Runtime, c: Contents)
    ensures At(Row(rt, c), "required_tags") == Found(Arr(TextItems(SortTexts(rt, c.task.tags))))
  {
    hide Units, RubricObject, ConsensusObject, ScoreFields, SortTexts, TextItems, FieldList, Ascii;
    RowNames(rt, c);
    NamesDistinct();
    ListLookup(TaskFields(rt, c) + GradeFields(c), NAMES[3]);
  }

  lemma RubricKeys(c: Contents)
    ensures var v := RubricObject(c);
            && At(v, "id") == Found(Str(c.rubric)) && At(v, "name") == Text(c.name)
            && At(v, "version") == Found(Num(Whole(c.version)))
  {
    hide Units, FieldList;
    var l := [("id", Str(c.rubric)), ("name", Str(Units(c.name))), ("version", Num(Whole(c.version)))];
    assert l[0].0 == "id" && l[1].0 == "name" && l[2].0 == "version";
    ListLookup(l, "id");
    ListLookup(l, "name");
    ListLookup(l, "version");
  }

  lemma ConsensusKeys(c: Contents)
    requires c.consensus.Some?
    ensures var v, (status, graders, spread) := ConsensusObject(c.consensus), c.consensus.value;
            && At(v, "status") == Text(match status
                                       case Agreed => "agreed"
                                       case Adjudicating => "adjudicating"
                                       case Adjudicated => "adjudicated")
            && At(v, "graders") == Found(Num(Whole(graders)))
            && At(v, "spread") == Found(Num(Float(spread)))
  {
    hide Units, FieldList;
    var (status, graders, spread) := c.consensus.value;
    var l := [("status", Str(Units(StatusText(status)))), ("graders", Num(Whole(graders))),
              ("spread", Num(Float(spread)))];
    assert l[0].0 == "status" && l[1].0 == "graders" && l[2].0 == "spread";
    ListLookup(l, "status");
    ListLookup(l, "graders");
    ListLookup(l, "spread");
  }

  lemma NoConsensus(c: Contents)
    ensures c.consensus == None ==> ConsensusObject(c.consensus) == Null
  {
  }

  // ----- the scores ---------------------------------------------------------------------------------------

  lemma {:induction false} ServiceScores(cfg: Settings, criteria: seq<Criterion>, scores: ScoreSheet, key: Key)
    ensures At(Obj(ScoreFields(Delivery.ScoreList(cfg, criteria, scores))), key)
         == if key in scores && (exists c <- criteria :: c.key == key)
            then Found(Num(Float(Delivery.Digits(cfg, scores[key])))) else Absent
  {
    hide Units, Delivery.Digits;
    if criteria != [] {
      ServiceScores(cfg, criteria[1..], scores, key);
      assert criteria == [criteria[0]] + criteria[1..];
      if Units(criteria[0].key) == Units(key) {
        Tags.UnitsInjective(criteria[0].key, key);
      }
    }
  }

  // ----- the rows of the service ----------------------------------------------------------------------------

  /** A delivered row has its task's columns under the keys of a task. */
  lemma ServiceTaskKeys(cfg: Settings, s: State, i: nat)
    requires Linked(s) && i < |Delivery.Rows(s)|
    ensures var v, grade := Delivery.RowValues(cfg, s)[i], s.grades[Delivery.Rows(s)[i]];
            var task := cfg.columns.task(grade.task);
            && grade.task < |s.tasks|
            && At(v, "task_id") == Found(Str(task.id))
            && At(v, "external_ref")
               == (match task.externalRef case None => Found(Null) case Some(text) => Found(Str(text)))
            && At(v, "task_type") == Text(s.tasks[grade.task].kind)
            && At(v, "required_tags") == Found(Arr(TextItems(SortTexts(Python, task.tags))))
            && At(v, "prompt") == Found(Str(task.prompt))
            && At(v, "responses") == Found(task.responses)
  {
    hide Units, Row, At, Delivery.Rows, Delivery.StoredDigits, Delivery.ScoreList, SortTexts, TextItems;
    var g := Delivery.Rows(s)[i];
    assert LinkedGrade(s, s.grades[g]);
    var c := Delivery.Contents(cfg, s, g);
    TaskKeys(Python, c);
    TagKey(Python, c);
  }

  /** And its grade's, its author's, its rubric version's and its round's under the others. */
  lemma ServiceGradeKeys(cfg: Settings, s: State, i: nat)
    requires Linked(s) && i < |Delivery.Rows(s)|
    ensures var g := Delivery.Rows(s)[i];
            var v, grade, columns := Delivery.RowValues(cfg, s)[i], s.grades[g], cfg.columns;
            && grade.expert < |s.experts|
            && At(v, "expert_id") == Found(Str(columns.expert(grade.expert)))
            && At(v, "expert_tier") == Text(match s.experts[grade.expert].tier
                                            case Junior => "junior" case Senior => "senior" case Lead => "lead")
            && At(v, "weighted_score") == Found(Num(Float(Delivery.StoredDigits(cfg, s, g))))
            && At(v, "rationale") == Found(Str(columns.grade(g).rationale))
            && At(v, "time_spent_seconds") == Found(Num(Whole(columns.grade(g).seconds)))
  {
    hide Units, Row, At, Delivery.Rows, Delivery.StoredDigits, Delivery.ScoreList;
    var g := Delivery.Rows(s)[i];
    assert LinkedGrade(s, s.grades[g]);
    GradeKeys(Python, Delivery.Contents(cfg, s, g));
  }

  lemma ServiceInnerKeys(cfg: Settings, s: State, i: nat, key: Key)
    requires Linked(s) && i < |Delivery.Rows(s)|
    ensures var v, grade := Delivery.RowValues(cfg, s)[i], s.grades[Delivery.Rows(s)[i]];
            && grade.rubric < |s.rubrics|
            && var rubric := s.rubrics[grade.rubric];
               && At(v, "rubric").Found? && At(v, "scores").Found? && At(v, "consensus").Found?
               && At(At(v, "rubric").value, "id") == Found(Str(cfg.columns.rubric(grade.rubric)))
               && At(At(v, "rubric").value, "name") == Text(rubric.name)
               && At(At(v, "rubric").value, "version") == Found(Num(Whole(rubric.version)))
               && At(At(v, "scores").value, key)
                  == (if key in grade.scores && (exists c <- rubric.criteria :: c.key == key)
                      then Found(Num(Float(Delivery.Digits(cfg, grade.scores[key])))) else Absent)
               && (grade.task !in s.rounds ==> At(v, "consensus").value == Null)
  {
    hide Units, Row, At, Delivery.Rows, Delivery.StoredDigits, Delivery.ScoreList, RubricObject, ConsensusObject,
      Delivery.Digits;
    var g := Delivery.Rows(s)[i];
    assert LinkedGrade(s, s.grades[g]);
    var c := Delivery.Contents(cfg, s, g);
    GradeKeys(Python, c);
    RubricKeys(c);
    NoConsensus(c);
    ServiceScores(cfg, s.rubrics[s.grades[g].rubric].criteria, s.grades[g].scores, key);
  }

  /** The round of a task with several graders: its status, the number of grades and their spread. */
  lemma ServiceRoundKeys(cfg: Settings, s: State, i: nat)
    requires Linked(s) && i < |Delivery.Rows(s)| && s.grades[Delivery.Rows(s)[i]].task in s.rounds
    ensures var v, round := Delivery.RowValues(cfg, s)[i], s.rounds[s.grades[Delivery.Rows(s)[i]].task];
            && At(v, "consensus").Found?
            && At(At(v, "consensus").value, "status") == Text(match round.status
                                                              case Agreed => "agreed"
                                                              case Adjudicating => "adjudicating"
                                                              case Adjudicated => "adjudicated")
            && At(At(v, "consensus").value, "graders") == Found(Num(Whole(round.count)))
            && At(At(v, "consensus").value, "spread") == Found(Num(Float(Delivery.Digits(cfg, round.spread))))
  {
    hide Units, Row, At, Delivery.Rows, Delivery.StoredDigits, Delivery.ScoreList, RubricObject, ConsensusObject,
      Delivery.Digits;
    var g := Delivery.Rows(s)[i];
    assert LinkedGrade(s, s.grades[g]);
    var c := Delivery.Contents(cfg, s, g);
    GradeKeys(Python, c);
    ConsensusKeys(c);
  }

  /** A grade has a row exactly when a reviewer approved it, its task is not golden, and its round delivers it. */
  lemma RowsAre(s: State, clock: int, g: GradeId)
    requires Linked(s) && Invariant.ReviewsOk(s, clock)
    ensures g in Delivery.Rows(s) <==>
              && g < |s.grades|
              && (exists i :: 0 <= i < |s.reviews| && s.reviews[i].grade == g && s.reviews[i].decision == Approve)
              && !s.tasks[s.grades[g].task].golden
              && (s.grades[g].task in s.rounds ==> s.rounds[s.grades[g].task].delivered == Some(g))
  {
    hide Delivery.Rows, Invariant.ReviewsOk;
    Exports.RowsMember(s, g);
    Picks.DecisionMeans(s, clock, g, Approve);
  }

  // ----- the rows of the port -------------------------------------------------------------------------------

  /** The port's rows hold the columns of its own tables. */
  lemma PortKeys(columns: Columns, p: Port.Sim, i: nat)
    requires Port.Linked(p) && i < |Port.DeliveryRows(p)|
    ensures p.rubric.Some?
    ensures var g := Port.DeliveryRows(p)[i];
            var v, grade, rubric := Port.RowValues(columns, p)[i], p.grades[g], p.rubric.value;
            var task := columns.task(grade.task);
            && At(v, "task_id") == Found(Str(task.id)) && At(v, "prompt") == Found(Str(task.prompt))
            && At(v, "responses") == Found(task.responses)
            && At(v, "task_type") == Text(p.tasks[grade.task].kind)
            && At(v, "expert_id") == Found(Str(columns.expert(grade.expert)))
            && At(v, "expert_tier") == Text(match p.experts[grade.expert].tier
                                            case Junior => "junior" case Senior => "senior" case Lead => "lead")
            && At(v, "rationale") == Found(Str(columns.grade(g).rationale))
            && At(v, "time_spent_seconds") == Found(Num(Whole(columns.grade(g).seconds)))
            && At(v, "consensus") == Found(Null)
            && At(v, "rubric").Found? && At(At(v, "rubric").value, "name") == Text(rubric.name)
            && At(At(v, "rubric").value, "version") == Found(Num(Whole(rubric.version)))
  {
    hide Units, Row, At, Port.DeliveryRows, Port.ScoreList, RubricObject, ConsensusObject, Weighing.PortScore;
    var g := Port.DeliveryRows(p)[i];
    var c := Port.Contents(columns, p, g);
    TaskKeys(Floats.JsOf(columns.floats), c);
    GradeKeys(Floats.JsOf(columns.floats), c);
    RubricKeys(c);
    NoConsensus(c);
  }
}
