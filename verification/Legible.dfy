/** Which delivered rows the port writes as JSON: all but those with a score or spread of 1e21 or more. */
module Legible {
  import opened Wrappers
  import opened Model
  import opened Numbers
  import opened Json
  import opened Rows
  import opened Bodies
  import opened Grammar

  predicate Below(x: Double) {
    Magnitude(x) < 1000000000000000000000.0
  }

  lemma FloatTame(js: Js, x: Double)
    ensures Tame(js, Float(x), true) <==> Below(x)
  {
  }

  ghost predicate TameList(js: Js, l: seq<(string, Json)>) {
    forall i | 0 <= i < |l| :: TameValue(js, l[i].1, FloatName(l[i].0))
  }

  lemma {:induction false} ListTame(js: Js, l: seq<(string, Json)>)
    requires AsciiNames(l)
    ensures TameFields(js, FieldList(l), false) <==> TameList(js, l)
  {
    hide TameValue, FloatField, Units, FloatName, Ascii;
    if l != [] {
      ListTame(js, l[1..]);
      FloatNames(l[0].0);
      assert l == [l[0]] + l[1..];
    }
  }

  lemma {:induction false} TextsTame(js: Js, xs: seq<Text>)
    ensures TameItems(js, TextItems(xs), false)
  {
    if xs != [] {
      TextsTame(js, xs[1..]);
    }
  }

  lemma {:induction false} ScoresTame(js: Js, scores: seq<(Key, Double)>)
    ensures TameFields(js, ScoreFields(scores), true) <==> forall i | 0 <= i < |scores| :: Below(scores[i].1)
  {
    hide Below, Units, Tame;
    if scores != [] {
      ScoresTame(js, scores[1..]);
      FloatTame(js, scores[0].1);
      assert scores == [scores[0]] + scores[1..];
    }
  }

  lemma RubricTame(js: Js, c: Contents)
    ensures TameValue(js, RubricObject(c), false)
  {
    hide Units, FloatName;
    var l := [("id", Str(c.rubric)), ("name", Str(Units(c.name))), ("version", Num(Whole(c.version)))];
    assert l[0].0 == "id" && l[1].0 == "name" && l[2].0 == "version";
    NotFloat();
    ListTame(js, l);
  }

  lemma NotFloat()
    ensures !FloatName("id") && !FloatName("name") && !FloatName("version") && !FloatName("status")
    ensures !FloatName("graders") && FloatName("spread")
  {
  }

  ghost predicate SpreadBelow(c: Contents) {
    c.consensus.Some? ==> Below(c.consensus.value.2)
  }

  lemma ConsensusTame(js: Js, c: Contents)
    ensures TameValue(js, ConsensusObject(c.consensus), false) <==> SpreadBelow(c)
  {
    hide Units, FloatName, Below, Tame;
    if c.consensus.Some? {
      var (status, graders, spread) := c.consensus.value;
      var l := [("status", Str(Units(StatusText(status)))), ("graders", Num(Whole(graders))),
                ("spread", Num(Float(spread)))];
      assert l[0].0 == "status" && l[1].0 == "graders" && l[2].0 == "spread";
      NotFloat();
      ListTame(js, l);
      FloatTame(js, spread);
      WholeTame(js, graders);
    }
  }

  lemma WholeTame(js: Js, n: int)
    ensures Tame(js, Whole(n), false)
  {
  }

  lemma TaskTame(js: Js, c: Contents)
    ensures TameList(js, TaskFields(js, c)) <==> TameValue(js, c.task.responses, false)
    ensures AsciiNames(TaskFields(js, c)) && |TaskFields(js, c)| == 6
  {
    hide Units, FloatName, SortTexts, TextItems, Tame;
    var l := TaskFields(js, c);
    assert l[0].0 == "task_id" && l[1].0 == "external_ref" && l[2].0 == "task_type" && l[3].0 == "required_tags";
    assert l[4].0 == "prompt" && l[5].0 == "responses";
    assert forall i | 0 <= i < 6 :: !FloatName(l[i].0) by {
      NoneFloat(l);
    }
    TextsTame(js, SortTexts(js, c.task.tags));
    assert TameList(js, l) <==>
      && TameValue(js, l[0].1, false) && TameValue(js, l[1].1, false) && TameValue(js, l[2].1, false)
      && TameValue(js, l[3].1, false) && TameValue(js, l[4].1, false) && TameValue(js, l[5].1, false);
  }

  lemma NoneFloat(l: seq<(string, Json)>)
    requires |l| == 6 && l[0].0 == "task_id" && l[1].0 == "external_ref" && l[2].0 == "task_type"
    requires l[3].0 == "required_tags" && l[4].0 == "prompt" && l[5].0 == "responses"
    ensures forall i | 0 <= i < 6 :: !FloatName(l[i].0)
  {
  }

  lemma GradeTame(js: Js, c: Contents)
    ensures TameList(js, GradeFields(c))
       <==> Below(c.weighted) && SpreadBelow(c) && forall i | 0 <= i < |c.scores| :: Below(c.scores[i].1)
  {
    hide Units, RubricObject, ConsensusObject, ScoreFields, FloatName, TierText, Below, Tame, SpreadBelow;
    var l := GradeFields(c);
    GradeNames(c);
    RubricTame(js, c);
    ConsensusTame(js, c);
    ScoresTame(js, c.scores);
    FloatTame(js, c.weighted);
    WholeTame(js, c.grade.seconds);
    assert TameList(js, l) <==>
      && TameValue(js, l[0].1, false) && TameValue(js, l[1].1, false) && TameValue(js, l[2].1, false)
      && TameValue(js, l[3].1, true) && TameValue(js, l[4].1, true) && TameValue(js, l[5].1, false)
      && TameValue(js, l[6].1, false) && TameValue(js, l[7].1, false);
  }

  /** No weighted score, score or spread reaches 1e21, nor does a number in a float field of the responses. */
  ghost predicate Moderate(js: Js, c: Contents) {
    && Below(c.weighted) && SpreadBelow(c) && (forall i | 0 <= i < |c.scores| :: Below(c.scores[i].1))
    && TameValue(js, c.task.responses, false)
  }

  /** The port's line of a row is the JSON text of the row, its keys sorted, exactly when its numbers are moderate. */
  lemma PortRowReads(js: Js, c: Contents)
    ensures Reads(js, Stringify(js, Row(js, c), false), Canon(js, Row(js, c)), []) <==> Moderate(js, c)
  {
    hide Units, TaskFields, GradeFields, FieldList, FloatName, Ascii, Stringify, Canon, Reads, Below, SpreadBelow;
    var a, b := TaskFields(js, c), GradeFields(c);
    LineReads(js, [Row(js, c)], 0);
    TaskTame(js, c);
    GradeNames(c);
    GradeTame(js, c);
    ListTame(js, a + b);
    assert forall i | 0 <= i < |a| :: (a + b)[i] == a[i];
    assert forall i | 0 <= i < |b| :: (a + b)[|a| + i] == b[i];
    assert TameList(js, a + b) <==> TameList(js, a) && TameList(js, b);
  }
}
