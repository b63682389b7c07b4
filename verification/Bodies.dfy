/** The port's export against the service's, byte for byte: the same rows, and exactly which of them print alike. */
module Bodies {
  import opened Wrappers
  import opened Model
  import opened Numbers
  import opened Json
  import opened Portability
  import opened Rows
  import Grading
  import Scores

  // ----- plain literals -----------------------------------------------------------------------------------

  predicate Ascii(s: string) {
    forall i | 0 <= i < |s| :: s[i] as int <= 126
  }

  lemma {:induction false} AsciiUnits(s: string)
    requires Ascii(s)
    ensures |Units(s)| == |s| && (forall i | 0 <= i < |s| :: Units(s)[i] == s[i] as int) && PlainText(Units(s))
  {
    if s != [] {
      assert forall i | 0 <= i < |s[1..]| :: s[1..][i] == s[i + 1];
      AsciiUnits(s[1..]);
      assert Units(s) == [s[0] as int] + Units(s[1..]);
    }
  }

  lemma UnitsDiffer(a: string, b: string)
    requires Ascii(a) && Ascii(b) && a != b
    ensures Units(a) != Units(b)
  {
    AsciiUnits(a);
    AsciiUnits(b);
    if |a| == |b| {
      var i :| 0 <= i < |a| && a[i] != b[i];
      assert Units(a)[i] != Units(b)[i];
    }
  }

  /** Below which fields of a row numbers are floats. */
  predicate FloatName(name: string) {
    name == "weighted_score" || name == "spread" || name == "scores"
  }

  lemma LiteralsAscii()
    ensures Ascii("weighted_score") && Ascii("spread") && Ascii("scores")
  {
  }

  lemma FloatNames(name: string)
    requires Ascii(name)
    ensures FloatField(Units(name)) <==> FloatName(name)
  {
    hide Units, Ascii;
    LiteralsAscii();
    if name != "weighted_score" {
      UnitsDiffer(name, "weighted_score");
    }
    if name != "spread" {
      UnitsDiffer(name, "spread");
    }
    if name != "scores" {
      UnitsDiffer(name, "scores");
    }
  }

  // ----- one row ------------------------------------------------------------------------------------------

  ghost predicate AsciiNames(l: seq<(string, Json)>) {
    forall i | 0 <= i < |l| :: Ascii(l[i].0)
  }

  lemma {:induction false} ListPortable(js: Js, l: seq<(string, Json)>)
    requires AsciiNames(l)
    ensures PortableFields(js, FieldList(l), false)
       <==> forall i | 0 <= i < |l| :: Portable(js, l[i].1, FloatName(l[i].0))
  {
    hide Portable, PlainText, FloatField, Units, FloatName, Ascii;
    if l != [] {
      ListPortable(js, l[1..]);
      AsciiUnits(l[0].0);
      FloatNames(l[0].0);
      assert l == [l[0]] + l[1..];
    }
  }

  lemma {:induction false} ListPlain(l: seq<(string, Json)>, i: nat)
    requires PlainFields(FieldList(l)) && i < |l|
    ensures PlainStrings(l[i].1)
  {
    hide PlainStrings, PlainText, Units;
    if i > 0 {
      ListPlain(l[1..], i - 1);
    }
  }

  lemma {:induction false} TextsItems(js: Js, xs: seq<Text>)
    ensures PlainItems(TextItems(xs)) <==> forall i | 0 <= i < |xs| :: PlainText(xs[i])
    ensures PortableItems(js, TextItems(xs), false) <==> forall i | 0 <= i < |xs| :: PlainText(xs[i])
  {
    hide PlainText;
    if xs != [] {
      TextsItems(js, xs[1..]);
      assert xs == [xs[0]] + xs[1..];
    }
  }

  lemma PermutedPlain(xs: seq<Text>, ys: seq<Text>)
    requires multiset(xs) == multiset(ys) && forall i | 0 <= i < |xs| :: PlainText(xs[i])
    ensures forall i | 0 <= i < |ys| :: PlainText(ys[i])
  {
    hide PlainText;
    forall i | 0 <= i < |ys| ensures PlainText(ys[i]) {
      assert ys[i] in multiset(xs);
      var k :| 0 <= k < |xs| && xs[k] == ys[i];
    }
  }

  lemma {:induction false} SameInserted(js: Js, x: Text, xs: seq<Text>)
    requires PlainText(x) && forall i | 0 <= i < |xs| :: PlainText(xs[i])
    ensures InsertText(Python, x, xs) == InsertText(js, x, xs)
  {
    hide PlainText, KeyBefore;
    if xs != [] {
      PlainOrder(js, x, xs[0]);
      SameInserted(js, x, xs[1..]);
    }
  }

  /** Plain tags are sorted alike; others by code point on the service and by unit on the port. */
  lemma {:induction false} SameTags(js: Js, xs: seq<Text>)
    requires forall i | 0 <= i < |xs| :: PlainText(xs[i])
    ensures SortTexts(Python, xs) == SortTexts(js, xs)
  {
    hide PlainText, InsertText;
    if xs != [] {
      SameTags(js, xs[1..]);
      var rest := SortTexts(js, xs[1..]);
      PermutedPlain(xs[1..], rest);
      SameInserted(js, xs[0], rest);
    }
  }

  lemma PlainRow(js: Js, c: Contents)
    requires PlainStrings(Row(Python, c))
    ensures Row(js, c) == Row(Python, c)
  {
    hide Units, PlainText, FieldList, GradeFields, SortTexts;
    var l := TaskFields(Python, c) + GradeFields(c);
    ListPlain(l, 3);
    var sorted := SortTexts(Python, c.task.tags);
    assert l[3].1 == Arr(TextItems(sorted));
    TextsItems(js, sorted);
    PermutedPlain(sorted, c.task.tags);
    SameTags(js, c.task.tags);
  }

  /** The two texts of a row are the same exactly when the service's value of it is portable. */
  lemma RowAgrees(js: Js, c: Contents)
    ensures Stringify(Python, Row(Python, c), false) == Stringify(js, Row(js, c), false)
       <==> Portable(js, Row(Python, c), false)
  {
    hide Stringify, Portable, PlainStrings, Row;
    var v, w := Row(Python, c), Row(js, c);
    PortAgrees(js, v, false);
    if Stringify(Python, v, false) == Stringify(js, w, false) {
      TextsPlain(js, v, w, false);
      PlainRow(js, c);
    }
    if Portable(js, v, false) {
      PortablePlain(js, v, false);
      PlainRow(js, c);
    }
  }

  // ----- rows whose stored scores may differ ---------------------------------------------------------------

  ghost predicate DistinctNames(l: seq<(string, Json)>) {
    forall i, j :: 0 <= i < j < |l| ==> l[i].0 != l[j].0
  }

  lemma {:induction false} ListLookup(l: seq<(string, Json)>, name: string)
    requires AsciiNames(l) && Ascii(name)
    ensures (forall i | 0 <= i < |l| :: l[i].0 != name) ==> Lookup(FieldList(l), Units(name)) == Absent
    ensures forall i | 0 <= i < |l| :: DistinctNames(l) && l[i].0 == name ==>
              Lookup(FieldList(l), Units(name)) == Found(l[i].1)
  {
    hide Units, Ascii;
    if l != [] {
      ListLookup(l[1..], name);
      if l[0].0 != name {
        UnitsDiffer(l[0].0, name);
      }
      assert forall i | 0 < i < |l| :: l[1..][i - 1] == l[i];
    }
  }

  lemma {:induction false} ListDistinct(l: seq<(string, Json)>)
    requires AsciiNames(l) && DistinctNames(l)
    ensures DistinctKeys(FieldList(l))
  {
    hide Units, Ascii;
    if l != [] {
      ListDistinct(l[1..]);
      ListLookup(l[1..], l[0].0);
    }
  }

  /** Objects with one text hold values with one text under each name. */
  lemma EqualField(rt1: Runtime, rt2: Runtime, l: seq<(string, Json)>, m: seq<(string, Json)>, i: nat)
    requires AsciiNames(l) && DistinctNames(l) && AsciiNames(m) && DistinctNames(m)
    requires i < |l| && i < |m| && m[i].0 == l[i].0
    requires Stringify(rt1, Obj(FieldList(l)), false) == Stringify(rt2, Obj(FieldList(m)), false)
    ensures Alike(rt1, rt2, Canon(rt1, l[i].1), Canon(rt2, m[i].1), FloatName(l[i].0))
  {
    hide Stringify, CanonFields, Units, Ascii, FloatField, FloatName, FieldList;
    var a, b, key := FieldList(l), FieldList(m), Units(l[i].0);
    TextsEqual(rt1, rt2, Obj(a), Obj(b), false);
    AlikeLookup(rt1, rt2, CanonFields(rt1, a), CanonFields(rt2, b), false, key);
    ListDistinct(l);
    ListDistinct(m);
    CanonLookup(rt1, a, key);
    CanonLookup(rt2, b, key);
    ListLookup(l, l[i].0);
    ListLookup(m, m[i].0);
    FloatNames(l[i].0);
  }

  lemma {:induction false} ListParts(rt: Runtime, l: seq<(string, Json)>, m: seq<(string, Json)>)
    requires |l| == |m|
    requires forall i | 0 <= i < |l| ::
               && l[i].0 == m[i].0
               && Stringify(rt, l[i].1, FloatField(Units(l[i].0))) == Stringify(rt, m[i].1, FloatField(Units(m[i].0)))
    ensures SortedParts(rt, FieldList(l), false) == SortedParts(rt, FieldList(m), false)
  {
    hide Stringify, Units, FloatField, InsertPart;
    if l != [] {
      assert forall i | 0 < i < |l| :: l[1..][i - 1] == l[i] && m[1..][i - 1] == m[i];
      ListParts(rt, l[1..], m[1..]);
    }
  }

  /** The names of a row, in the order of its fields. */
  const NAMES: seq<string> := [
    "task_id", "external_ref", "task_type", "required_tags", "prompt", "responses", "rubric", "expert_id",
    "expert_tier", "scores", "weighted_score", "rationale", "time_spent_seconds", "consensus"]

  lemma NamesDistinct()
    ensures |NAMES| == 14 && (forall i, j :: 0 <= i < j < 14 ==> NAMES[i] != NAMES[j])
    ensures forall i | 0 <= i < 14 :: Ascii(NAMES[i])
  {
  }

  lemma RowNames(rt: Runtime, c: Contents)
    ensures var l := TaskFields(rt, c) + GradeFields(c);
            |l| == 14 && (forall i | 0 <= i < 14 :: l[i].0 == NAMES[i]) && AsciiNames(l) && DistinctNames(l)
            && l[10] == ("weighted_score", Num(Float(c.weighted)))
  {
    hide Units, RubricObject, ConsensusObject, ScoreFields, SortTexts, TextItems, Ascii;
    NamesDistinct();
    var l := TaskFields(rt, c) + GradeFields(c);
    assert forall i | 0 <= i < 14 :: l[i].0 == NAMES[i];
  }

  /** The same line on both sides: the port's weighted score shows the digits of the service's. */
  lemma ScoreTold(js: Js, c: Contents, w: Double)
    requires Stringify(Python, Row(Python, c), false) == Stringify(js, Row(js, c.(weighted := w)), false)
    ensures c.weighted == Shown(w)
  {
    hide Stringify, TaskFields, GradeFields, Canon, AsciiNames, DistinctNames, FieldList, Read, NumberText;
    var d := c.(weighted := w);
    RowNames(Python, c);
    RowNames(js, d);
    EqualField(Python, js, TaskFields(Python, c) + GradeFields(c), TaskFields(js, d) + GradeFields(d), 10);
    AlikeNumbers(js, c.weighted, w);
  }

  lemma AlikeNumbers(js: Js, x: Double, w: Double)
    ensures Alike(Python, js, Canon(Python, Num(Float(x))), Canon(js, Num(Float(w))), true) ==> x == Shown(w)
  {
    hide FloatText, Read;
    ServiceReads(x);
    PortReads(js, Float(w), true);
  }

  /** The port's line depends on what its weighted score shows. */
  lemma ShownScore(js: Js, c: Contents, w: Double)
    requires Shown(w) == Shown(c.weighted)
    ensures Stringify(js, Row(js, c.(weighted := w)), false) == Stringify(js, Row(js, c), false)
  {
    hide Units, FloatField, FloatText, TextItems, SortTexts, ConsensusObject, ScoreFields, FieldList;
    var d := c.(weighted := w);
    var l, m := TaskFields(js, d) + GradeFields(d), TaskFields(js, c) + GradeFields(c);
    RowNames(js, c);
    RowNames(js, d);
    assert forall i | 0 <= i < 14 && i != 10 :: l[i] == m[i];
    ListParts(js, l, m);
  }

  /**
   * The two lines of a row whose stored scores each side computed itself are the same exactly when the service's row is
   * portable and the port's score shows the same digits.
   */
  lemma RowsAgree(js: Js, c: Contents, w: Double)
    ensures Stringify(Python, Row(Python, c), false) == Stringify(js, Row(js, c.(weighted := w)), false)
       <==> Portable(js, Row(Python, c), false) && c.weighted == Shown(w)
  {
    hide Stringify, Portable, Row;
    RowAgrees(js, c);
    if Stringify(Python, Row(Python, c), false) == Stringify(js, Row(js, c.(weighted := w)), false) {
      ScoreTold(js, c, w);
    }
    if c.weighted == Shown(w) {
      ShownScore(js, c, w);
    }
  }

  // ----- what a portable row is -----------------------------------------------------------------------------

  /** Every text of the row is plain. */
  ghost predicate PlainContents(c: Contents) {
    && PlainText(c.task.id) && (c.task.externalRef.Some? ==> PlainText(c.task.externalRef.value))
    && PlainText(Units(c.kind)) && (forall i | 0 <= i < |c.task.tags| :: PlainText(c.task.tags[i]))
    && PlainText(c.task.prompt) && PlainText(c.rubric) && PlainText(Units(c.name)) && PlainText(c.expert)
    && (forall i | 0 <= i < |c.scores| :: PlainText(Units(c.scores[i].0))) && PlainText(c.grade.rationale)
  }

  /** A score that prints alike. */
  ghost predicate PortableFloat(x: Double) {
    || x == Zero(false)
    || (x.Digits? && Scaled(1.0, -4) <= Magnitude(x) < Scaled(1.0, 16))
    || (x.Digits? && Magnitude(x) < Scaled(1.0, -9))
  }

  ghost predicate PortableScores(c: Contents) {
    && (forall i | 0 <= i < |c.scores| :: PortableFloat(c.scores[i].1)) && PortableFloat(c.weighted)
    && (c.consensus.Some? ==> PortableFloat(c.consensus.value.2))
  }

  /** An int that the port holds as a double of the same digits. */
  predicate Printable(js: Js, n: int) {
    Held(js, Whole(n)) == DecimalOf(n) && |Numeral(Abs(n))| <= 21
  }

  predicate PrintableCounts(js: Js, c: Contents) {
    && Printable(js, c.version) && Printable(js, c.grade.seconds)
    && (c.consensus.Some? ==> Printable(js, c.consensus.value.1))
  }

  lemma FloatPortable(js: Js, x: Double)
    ensures PortableNumber(js, Float(x), true) <==> PortableFloat(x)
  {
    FloatFieldPortable(js, x);
  }

  lemma {:induction false} ScoresPortable(js: Js, scores: seq<(Key, Double)>)
    ensures PortableFields(js, ScoreFields(scores), true)
       <==> forall i | 0 <= i < |scores| :: PlainText(Units(scores[i].0)) && PortableFloat(scores[i].1)
  {
    hide PlainText, Units, PortableFloat, PortableNumber, FloatField;
    if scores != [] {
      ScoresPortable(js, scores[1..]);
      FloatPortable(js, scores[0].1);
      assert scores == [scores[0]] + scores[1..];
    }
  }

  lemma ConsensusPortable(js: Js, c: Contents)
    ensures Portable(js, ConsensusObject(c.consensus), false)
       <==> c.consensus.Some? ==> Printable(js, c.consensus.value.1) && PortableFloat(c.consensus.value.2)
  {
    hide PlainText, Units, PortableFloat, PortableNumber, FieldList, Numeral;
    if c.consensus.Some? {
      var (status, graders, spread) := c.consensus.value;
      var l := [("status", Str(Units(StatusText(status)))), ("graders", Num(Whole(graders))),
                ("spread", Num(Float(spread)))];
      ListPortable(js, l);
      AsciiUnits(StatusText(status));
      FloatPortable(js, spread);
      WholePortable(js, graders);
      assert l[0].0 == "status" && l[1].0 == "graders" && l[2].0 == "spread";
    }
  }

  lemma WholePortable(js: Js, n: int)
    ensures PortableNumber(js, Whole(n), false) <==> Printable(js, n)
  {
  }

  lemma RubricPortable(js: Js, c: Contents)
    ensures Portable(js, RubricObject(c), false)
       <==> PlainText(c.rubric) && PlainText(Units(c.name)) && Printable(js, c.version)
  {
    hide PlainText, Units, PortableNumber, FieldList, Numeral;
    var l := [("id", Str(c.rubric)), ("name", Str(Units(c.name))), ("version", Num(Whole(c.version)))];
    ListPortable(js, l);
    WholePortable(js, c.version);
    assert l[0].0 == "id" && l[1].0 == "name" && l[2].0 == "version";
  }

  ghost predicate PortableList(js: Js, l: seq<(string, Json)>) {
    forall i | 0 <= i < |l| :: Portable(js, l[i].1, FloatName(l[i].0))
  }

  lemma TagsPortable(js: Js, c: Contents)
    ensures Portable(js, Arr(TextItems(SortTexts(Python, c.task.tags))), false)
       <==> forall i | 0 <= i < |c.task.tags| :: PlainText(c.task.tags[i])
  {
    hide PlainText, SortTexts, TextItems;
    var sorted := SortTexts(Python, c.task.tags);
    TextsItems(js, sorted);
    if forall i | 0 <= i < |sorted| :: PlainText(sorted[i]) {
      PermutedPlain(sorted, c.task.tags);
    }
    if forall i | 0 <= i < |c.task.tags| :: PlainText(c.task.tags[i]) {
      PermutedPlain(c.task.tags, sorted);
    }
  }

  lemma TaskPortable(js: Js, c: Contents)
    ensures AsciiNames(TaskFields(Python, c))
    ensures PortableList(js, TaskFields(Python, c)) <==>
              && PlainText(c.task.id) && (c.task.externalRef.Some? ==> PlainText(c.task.externalRef.value))
              && PlainText(Units(c.kind)) && (forall i | 0 <= i < |c.task.tags| :: PlainText(c.task.tags[i]))
              && PlainText(c.task.prompt) && Portable(js, c.task.responses, false)
  {
    hide PlainText, Units, TextItems, SortTexts;
    var l := TaskFields(Python, c);
    TagsPortable(js, c);
    assert l[0].0 == "task_id" && l[1].0 == "external_ref" && l[2].0 == "task_type";
    assert l[3].0 == "required_tags" && l[4].0 == "prompt" && l[5].0 == "responses";
  }

  lemma GradeNames(c: Contents)
    ensures AsciiNames(GradeFields(c)) && |GradeFields(c)| == 8
    ensures forall i | 0 <= i < 8 :: FloatName(GradeFields(c)[i].0) <==> i == 3 || i == 4
  {
    hide Units, RubricObject, ConsensusObject, ScoreFields;
    var l := GradeFields(c);
    assert l[0].0 == "rubric" && l[1].0 == "expert_id" && l[2].0 == "expert_tier" && l[3].0 == "scores";
    assert l[4].0 == "weighted_score" && l[5].0 == "rationale" && l[6].0 == "time_spent_seconds";
    assert l[7].0 == "consensus";
  }

  lemma GradePortable(js: Js, c: Contents)
    ensures PortableList(js, GradeFields(c)) <==>
              && PlainText(c.rubric) && PlainText(Units(c.name)) && PlainText(c.expert)
              && (forall i | 0 <= i < |c.scores| :: PlainText(Units(c.scores[i].0))) && PlainText(c.grade.rationale)
              && PortableScores(c) && PrintableCounts(js, c)
  {
    hide PlainText, Units, RubricObject, ConsensusObject, PortableFloat, PortableNumber, ScoreFields, Printable,
      FloatName, TierText;
    var l := GradeFields(c);
    GradeNames(c);
    RubricPortable(js, c);
    ConsensusPortable(js, c);
    ScoresPortable(js, c.scores);
    FloatPortable(js, c.weighted);
    WholePortable(js, c.grade.seconds);
    TierPlain(c.tier);
    assert PortableList(js, l) <==>
      && Portable(js, l[0].1, false) && Portable(js, l[1].1, false) && Portable(js, l[2].1, false)
      && Portable(js, l[3].1, true) && Portable(js, l[4].1, true) && Portable(js, l[5].1, false)
      && Portable(js, l[6].1, false) && Portable(js, l[7].1, false);
  }

  lemma TierPlain(t: Tier)
    ensures PlainText(Units(TierText(t)))
  {
    AsciiUnits(TierText(t));
  }

  /**
   * A row prints alike exactly when its texts are plain and its scores the positive zero, in [1e-4, 1e16) or below
   * 1e-9; the counts are database integers, and the responses any JSON.
   */
  lemma RowPortable(js: Js, c: Contents)
    ensures Portable(js, Row(Python, c), false)
       <==> PlainContents(c) && PortableScores(c) && PrintableCounts(js, c) && Portable(js, c.task.responses, false)
  {
    hide PlainText, Units, TaskFields, GradeFields, PortableScores, PrintableCounts, FieldList, FloatName, Ascii;
    var a, b := TaskFields(Python, c), GradeFields(c);
    TaskPortable(js, c);
    GradeNames(c);
    GradePortable(js, c);
    ListPortable(js, a + b);
    assert forall i | 0 <= i < |a| :: (a + b)[i] == a[i];
    assert forall i | 0 <= i < |b| :: (a + b)[|a| + i] == b[i];
    assert PortableFields(js, FieldList(a + b), false) <==> PortableList(js, a) && PortableList(js, b);
  }

  /** A portable row's weighted score is no negative zero. */
  lemma PortableScore(js: Js, c: Contents)
    requires Portable(js, Row(Python, c), false)
    ensures c.weighted != Zero(true) && Shown(c.weighted) == c.weighted
  {
    hide Portable, Row, PlainContents, PrintableCounts;
    RowPortable(js, c);
  }

  // ----- rows that differ -----------------------------------------------------------------------------------

  const LARGE: Double := Digits(false, [49], 17)
  const SMALL: Double := Digits(false, [49], -4)
  const TINY: Double := Digits(false, [49], -9)

  /** `1e+16` and `10000000000000000.0`. */
  lemma LargeTexts(js: Js)
    ensures NumberText(Python, Float(LARGE), true) == [49, EXPONENT, PLUS, 49, 54]
    ensures NumberText(js, Float(LARGE), true) == [49] + Zeros(16) + [POINT, 48]
  {
    hide Units;
    assert Numeral(1) == [49];
    assert Numeral(16) == Numeral(1) + [54];
  }

  /** `1e-05` and `0.00001`. */
  lemma SmallTexts(js: Js)
    ensures NumberText(Python, Float(SMALL), true) == [49, EXPONENT, MINUS, 48, 53]
    ensures NumberText(js, Float(SMALL), true) == [48, POINT] + Zeros(4) + [49]
  {
    hide Units;
    assert Numeral(5) == [53];
  }

  /** `1e-10` on both sides: below 1e-9 the exponent has two digits and nothing is padded. */
  lemma TinyTexts(js: Js)
    ensures NumberText(Python, Float(TINY), true) == [49, EXPONENT, MINUS, 49, 48]
    ensures NumberText(js, Float(TINY), true) == [49, EXPONENT, MINUS, 49, 48]
  {
    hide Units;
    assert Numeral(1) == [49];
    assert Numeral(10) == Numeral(1) + [48];
  }

  /** `-0.0` and `0.0`. */
  lemma NegativeZeroTexts(js: Js)
    ensures NumberText(Python, Float(Zero(true)), true) == [MINUS, 48, POINT, 48]
    ensures NumberText(js, Float(Zero(true)), true) == [48, POINT, 48]
  {
  }

  /** Criteria weighted 1e16 and -1e16 have no total, so scores of two and one are a weighted score of 1e16. */
  lemma LargeScore()
    ensures var cs := [Criterion("a", 10000000000000000.0, 1, 5), Criterion("b", -10000000000000000.0, 1, 5)];
            var scores: ScoreSheet := map["a" := 2.0, "b" := 1.0];
            && Grading.ValidScores(cs, scores) && (forall c <- cs :: c.key in scores)
            && Scores.Weighted(cs, scores) == 10000000000000000.0
  {
    var a, b := Criterion("a", 10000000000000000.0, 1, 5), Criterion("b", -10000000000000000.0, 1, 5);
    var scores: ScoreSheet := map["a" := 2.0, "b" := 1.0];
    assert [a, b][1..] == [b] && [b][1..] == [];
    assert Scores.TotalWeight([a, b]) == a.weight + Scores.TotalWeight([b]);
    assert Scores.WeightedSum([b], scores) == scores[b.key] * b.weight + Scores.WeightedSum([], scores);
    assert Scores.WeightedSum([b], scores) == -10000000000000000.0;
    assert Scores.WeightedSum([a, b], scores) == 10000000000000000.0;
  }

  /** Whatever else a row holds, with such a weighted score the two lines differ. */
  lemma ScoreDiffers(js: Js, c: Contents)
    requires c.weighted == LARGE || c.weighted == SMALL || c.weighted == Zero(true)
    ensures Stringify(Python, Row(Python, c), false) != Stringify(js, Row(js, c), false)
  {
    hide Stringify, Row, PlainContents, PrintableCounts;
    RowAgrees(js, c);
    RowPortable(js, c);
    FloatPortable(js, c.weighted);
  }
}
