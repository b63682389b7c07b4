/**
 * The port's export against the service's, over the domain the two share: the same rows but for the weighted score each
 * side computed itself, and when they are the same bytes.
 */
module LockStepExports {
  import opened Wrappers
  import opened Model
  import opened Numbers
  import opened Json
  import opened Tables
  import opened Invariant
  import opened Scoring
  import opened LockStep
  import opened LockStepRuns
  import Bodies
  import Delivery
  import Floats
  import Grading
  import Jsonl
  import Port
  import Portability
  import Rows
  import Scores
  import Service
  import LastDigit
  import Weighing

  // ----- the same contents ----------------------------------------------------------------------------------

  lemma {:induction false} ScoreListView(cfg: Settings, criteria: seq<Criterion>, scores: ScoreSheet)
    requires forall c <- criteria :: c.key in scores
    ensures Port.ScoreList(cfg.columns, criteria, scores) == Delivery.ScoreList(cfg, criteria, scores)
  {
    if criteria != [] {
      assert forall c <- criteria[1..] :: c in criteria;
      ScoreListView(cfg, criteria[1..], scores);
    }
  }

  /** A row of the view is linked to the tasks and experts of the view. */
  lemma LinkedView(s: State)
    requires Linked(s)
    ensures Port.Linked(View(s))
  {
  }

  /** The weighted score of a grade as the service stores it, and as the port does. */
  function ServiceStored(cfg: Settings, s: State, g: GradeId): (r: Floats.Double64)
    requires Linked(s) && g < |s.grades|
  {
    Weighing.ServiceScore(cfg.columns.floats, s.rubrics[s.grades[g].rubric].criteria, s.grades[g].scores)
  }

  function PortStored(cfg: Settings, s: State, g: GradeId): (r: Floats.Double64)
    requires Linked(s) && g < |s.grades|
  {
    Weighing.PortScore(cfg.columns.floats, s.rubrics[s.grades[g].rubric].criteria, s.grades[g].scores)
  }

  function PortDigits(cfg: Settings, s: State, g: GradeId): (r: Double)
    requires Linked(s) && g < |s.grades|
  {
    cfg.columns.floats.digits(PortStored(cfg, s, g))
  }

  lemma ContentsView(cfg: Settings, s: State, clock: int, g: GradeId)
    requires Shared(cfg, s, clock) && GradesScored(s) && Linked(s) && Port.Linked(View(s)) && g < |s.grades|
    ensures |View(s).grades| == |s.grades| && View(s).rubric.Some?
    ensures Port.Contents(cfg.columns, View(s), g)
         == Delivery.Contents(cfg, s, g).(weighted := PortDigits(cfg, s, g))
  {
    hide Inv, DecisionOf, Port.ScoreList, Delivery.ScoreList, Scores.Weighted, Grading.ValidScores, Weighing.PortScore,
      Weighing.ServiceScore;
    NoRounds(cfg, s, clock);
    assert LinkedGrade(s, s.grades[g]);
    assert ScoredGrade(s.rubrics, s.grades[g]);
    ScoreListView(cfg, s.rubrics[0].criteria, s.grades[g].scores);
  }

  lemma RowsView(cfg: Settings, s: State, clock: int)
    requires Shared(cfg, s, clock)
    ensures Linked(s) && Port.DeliveryRows(View(s)) == Delivery.Rows(s)
  {
    hide Inv, DecisionOf, Port.Selected, Port.SortedRows, Delivery.Selected, Delivery.SortRows;
    SharedInv(cfg, s, clock);
    NoRounds(cfg, s, clock);
    SelectedView(cfg, s, |s.grades|);
    SortedRowsView(s, Delivery.Selected(s, |s.grades|));
  }

  // ----- the same bytes -------------------------------------------------------------------------------------

  /** The contents of the rows an export of the state would carry, and the port's weighted scores of them. */
  function AllContents(cfg: Settings, s: State): (r: seq<Rows.Contents>)
    requires Linked(s)
  {
    var rows := Delivery.Rows(s);
    seq(|rows|, i requires 0 <= i < |rows| => Delivery.Contents(cfg, s, rows[i]))
  }

  function AllDigits(cfg: Settings, s: State): (r: seq<Double>)
    requires Linked(s)
  {
    var rows := Delivery.Rows(s);
    seq(|rows|, i requires 0 <= i < |rows| => PortDigits(cfg, s, rows[i]))
  }

  function ServicePrints(contents: seq<Rows.Contents>): (r: seq<Json>) {
    seq(|contents|, i requires 0 <= i < |contents| => Rows.Row(Python, contents[i]))
  }

  function PortPrints(js: Js, contents: seq<Rows.Contents>, scores: seq<Double>): (r: seq<Json>)
    requires |scores| == |contents|
  {
    seq(|contents|, i requires 0 <= i < |contents| => Rows.Row(js, contents[i].(weighted := scores[i])))
  }

  lemma ValuesView(cfg: Settings, s: State, clock: int)
    requires Shared(cfg, s, clock) && GradesScored(s)
    ensures Linked(s) && Port.Linked(View(s)) && |AllDigits(cfg, s)| == |AllContents(cfg, s)| == |Delivery.Rows(s)|
    ensures Delivery.RowValues(cfg, s) == ServicePrints(AllContents(cfg, s))
    ensures Port.RowValues(cfg.columns, View(s))
         == PortPrints(Floats.JsOf(cfg.columns.floats), AllContents(cfg, s), AllDigits(cfg, s))
  {
    hide Shared, GradesScored, Rows.Row, Delivery.Contents, Port.Contents, Delivery.Rows, Port.DeliveryRows, View,
      Linked, Port.Linked, PortDigits, Floats.JsOf;
    RowsView(cfg, s, clock);
    LinkedView(s);
    var rows := Delivery.Rows(s);
    assert Delivery.Bounded(rows, |s.grades|);
    forall i | 0 <= i < |rows|
      ensures View(s).rubric.Some? && rows[i] < |View(s).grades| == |s.grades|
      ensures Port.Contents(cfg.columns, View(s), rows[i])
           == Delivery.Contents(cfg, s, rows[i]).(weighted := PortDigits(cfg, s, rows[i]))
    {
      ContentsView(cfg, s, clock, rows[i]);
    }
  }

  /** The service's row is portable, and the port's score shows the digits of the service's. */
  ghost predicate SamePrint(js: Js, c: Rows.Contents, w: Double) {
    Portability.Portable(js, Rows.Row(Python, c), false) && c.weighted == Shown(w)
  }

  /** Rows are printed to the same bytes exactly when each of them prints the same. */
  lemma PrintedAgree(js: Js, contents: seq<Rows.Contents>, scores: seq<Double>)
    requires |scores| == |contents|
    ensures Jsonl.ExportBytes(Python, ServicePrints(contents))
         == Jsonl.ExportBytes(js, PortPrints(js, contents, scores))
       <==> forall i | 0 <= i < |contents| :: SamePrint(js, contents[i], scores[i])
  {
    hide Jsonl.ExportBytes, Jsonl.Body, Rows.Row, Portability.Portable, Stringify;
    var a, b := ServicePrints(contents), PortPrints(js, contents, scores);
    Jsonl.BytesEqual(js, a, b);
    Jsonl.BodiesEqual(Python, js, a, b);
    forall i | 0 <= i < |contents|
      ensures Jsonl.Lines(Python, a)[i] == Jsonl.Lines(js, b)[i] <==> SamePrint(js, contents[i], scores[i])
    {
      Bodies.RowsAgree(js, contents[i], scores[i]);
    }
    if forall i | 0 <= i < |contents| :: SamePrint(js, contents[i], scores[i]) {
      assert Jsonl.Lines(Python, a) == Jsonl.Lines(js, b);
    }
  }

  /** The row of a grade is portable. */
  ghost predicate PortableRow(cfg: Settings, s: State, g: GradeId)
    requires Linked(s) && g < |s.grades|
  {
    Portability.Portable(Floats.JsOf(cfg.columns.floats), Rows.Row(Python, Delivery.Contents(cfg, s, g)), false)
  }

  /** The digits the two sides print for its weighted score are the same. */
  ghost predicate SameScore(cfg: Settings, s: State, g: GradeId)
    requires Linked(s) && g < |s.grades|
  {
    cfg.columns.floats.digits(ServiceStored(cfg, s, g)) == Shown(PortDigits(cfg, s, g))
  }

  /** The bytes of the port's export. */
  ghost function PortBytes(cfg: Settings, p: Port.Sim): (bytes: seq<Jsonl.Fips.Byte>)
    requires Port.Linked(p)
  {
    Jsonl.ExportBytes(Floats.JsOf(cfg.columns.floats), Port.RowValues(cfg.columns, p))
  }

  lemma NewBody(cfg: Settings, s: State)
    requires Linked(s)
    ensures Delivery.NewDelivery(cfg, s).body == Jsonl.ExportBytes(Python, Delivery.RowValues(cfg, s))
  {
    hide Jsonl.ExportBytes, Delivery.RowValues, Jsonl.ExportRecord;
  }

  lemma RowScore(cfg: Settings, s: State, g: GradeId)
    requires Linked(s) && g < |s.grades|
    ensures Delivery.Contents(cfg, s, g).weighted == cfg.columns.floats.digits(ServiceStored(cfg, s, g))
  {
    hide Weighing.ServiceScore, Delivery.ScoreList;
  }

  /**
   * The object the service stores is the body the port hashes exactly when every row delivered is portable and the two
   * weighted scores stored for it print the same digits.
   */
  lemma BytesView(cfg: Settings, s: State, clock: int)
    requires Shared(cfg, s, clock) && GradesScored(s)
    ensures Linked(s) && Port.Linked(View(s)) && Delivery.Bounded(Delivery.Rows(s), |s.grades|)
    ensures Delivery.NewDelivery(cfg, s).body == PortBytes(cfg, View(s))
       <==> forall i | 0 <= i < |Delivery.Rows(s)| ::
              PortableRow(cfg, s, Delivery.Rows(s)[i]) && SameScore(cfg, s, Delivery.Rows(s)[i])
  {
    hide Shared, GradesScored, View, Linked, Port.Linked, Jsonl.ExportBytes, Rows.Row, Portability.Portable,
      Delivery.RowValues, Port.RowValues, Delivery.NewDelivery, Delivery.Rows, Delivery.Contents, PortDigits,
      ServiceStored, Floats.JsOf;
    ValuesView(cfg, s, clock);
    NewBody(cfg, s);
    var rows, contents, scores := Delivery.Rows(s), AllContents(cfg, s), AllDigits(cfg, s);
    var js := Floats.JsOf(cfg.columns.floats);
    PrintedAgree(js, contents, scores);
    forall i | 0 <= i < |rows|
      ensures SamePrint(js, contents[i], scores[i]) <==> PortableRow(cfg, s, rows[i]) && SameScore(cfg, s, rows[i])
    {
      RowScore(cfg, s, rows[i]);
    }
  }

  // ----- when the scores are the same -----------------------------------------------------------------------

  /** A portable row prints the digits of its score on both sides, if both store the same double. */
  lemma SameStored(cfg: Settings, s: State, g: GradeId)
    requires Linked(s) && g < |s.grades| && ServiceStored(cfg, s, g) == PortStored(cfg, s, g)
    ensures PortableRow(cfg, s, g) ==> SameScore(cfg, s, g)
  {
    hide Linked, ServiceStored, PortStored, Rows.Row, Portability.Portable, Floats.JsOf, Delivery.Contents;
    var js, c := Floats.JsOf(cfg.columns.floats), Delivery.Contents(cfg, s, g);
    RowScore(cfg, s, g);
    if PortableRow(cfg, s, g) {
      Bodies.PortableScore(js, c);
    }
  }

  /** With digits that read back: a portable row has the same score on both sides exactly when the doubles are equal. */
  lemma ScoresTold(cfg: Settings, s: State, g: GradeId)
    requires Linked(s) && g < |s.grades| && Floats.ReadsBack(cfg.columns.floats) && PortableRow(cfg, s, g)
    ensures SameScore(cfg, s, g) <==> ServiceStored(cfg, s, g).value == PortStored(cfg, s, g).value
  {
    hide Rows.Row, Portability.Portable, Floats.JsOf, Delivery.Contents, Floats.BuiltinSum, Floats.PlainSum,
      Weighing.Products, Weighing.Weights, Floats.ReadsBack;
    var ar, js, c := cfg.columns.floats, Floats.JsOf(cfg.columns.floats), Delivery.Contents(cfg, s, g);
    assert LinkedGrade(s, s.grades[g]);
    RowScore(cfg, s, g);
    Bodies.PortableScore(js, c);
    var x := Weighing.Quotients(ar, s.rubrics[s.grades[g].rubric].criteria, s.grades[g].scores);
    Floats.SameDigits(ar, x.0, ServiceStored(cfg, s, g), x.1, PortStored(cfg, s, g));
  }

  /** Every row of the export has one stored score. */
  ghost predicate SharedScores(cfg: Settings, s: State)
    requires Linked(s)
  {
    forall g <- Delivery.Rows(s) :: ServiceStored(cfg, s, g) == PortStored(cfg, s, g)
  }

  /** Every row of the export was weighed in whole numbers below 2^53. */
  predicate WholeRows(s: State)
    requires Linked(s)
  {
    forall g <- Delivery.Rows(s) ::
      Weighing.WholeWeighing(s.rubrics[s.grades[g].rubric].criteria, s.grades[g].scores)
  }

  lemma WholeShared(cfg: Settings, s: State)
    requires Linked(s) && GradesScored(s) && Floats.KeepsIntegers(cfg.columns.floats) && WholeRows(s)
    ensures SharedScores(cfg, s)
  {
    hide Linked, Delivery.Rows, Floats.KeepsIntegers, Weighing.WholeWeighing, Weighing.ServiceScore, Weighing.PortScore,
      Scores.Weighted, Grading.ValidScores;
    forall g <- Delivery.Rows(s) ensures ServiceStored(cfg, s, g) == PortStored(cfg, s, g) {
      assert ScoredGrade(s.rubrics, s.grades[g]);
      Weighing.WholeScores(cfg.columns.floats, s.rubrics[s.grades[g].rubric].criteria, s.grades[g].scores);
    }
  }

  /** With one stored score a row, the bytes are the same exactly when every row is portable. */
  lemma SharedBytes(cfg: Settings, s: State, clock: int)
    requires Shared(cfg, s, clock) && GradesScored(s) && Linked(s) && SharedScores(cfg, s)
    ensures Port.Linked(View(s)) && Delivery.Bounded(Delivery.Rows(s), |s.grades|)
    ensures Delivery.NewDelivery(cfg, s).body == PortBytes(cfg, View(s))
       <==> forall i | 0 <= i < |Delivery.Rows(s)| :: PortableRow(cfg, s, Delivery.Rows(s)[i])
  {
    hide Shared, GradesScored, View, Linked, Port.Linked, PortBytes, Delivery.NewDelivery, Delivery.Rows, PortableRow,
      SameScore, ServiceStored, PortStored;
    BytesView(cfg, s, clock);
    var rows := Delivery.Rows(s);
    forall i | 0 <= i < |rows| ensures PortableRow(cfg, s, rows[i]) ==> SameScore(cfg, s, rows[i]) {
      SameStored(cfg, s, rows[i]);
    }
  }

  /** Weights 0.5, 0.3 and 0.2 scored 1, 1 and 2: no export with such a row is the same bytes, portable or not. */
  lemma LastDigitBytes(cfg: Settings, s: State, clock: int, g: GradeId)
    requires Shared(cfg, s, clock) && GradesScored(s) && Linked(s) && g in Delivery.Rows(s) && g < |s.grades|
    requires s.rubrics[0].criteria == LastDigit.CRITERIA && s.grades[g].scores == LastDigit.SCORES
    requires cfg.columns.floats == LastDigit.Doubles(cfg.columns.floats.digits)
    requires Floats.ReadsBack(cfg.columns.floats)
    ensures Port.Linked(View(s)) && Delivery.NewDelivery(cfg, s).body != PortBytes(cfg, View(s))
  {
    hide Shared, GradesScored, View, Port.Linked, PortBytes, Delivery.NewDelivery, Delivery.Rows, PortableRow,
      Weighing.ServiceScore, Weighing.PortScore, Floats.ReadsBack, SameScore;
    BytesView(cfg, s, clock);
    OneRubric(cfg, s, clock);
    assert LinkedGrade(s, s.grades[g]);
    var i :| 0 <= i < |Delivery.Rows(s)| && Delivery.Rows(s)[i] == g;
    if PortableRow(cfg, s, g) {
      ScoresTold(cfg, s, g);
      LastDigit.ScoresDiffer(cfg.columns.floats.digits);
    }
  }

  lemma OneRubric(cfg: Settings, s: State, clock: int)
    requires Shared(cfg, s, clock)
    ensures |s.rubrics| == 1
  {
  }

  // ----- over a run -----------------------------------------------------------------------------------------

  lemma {:induction false} ScoredRun(cfg: Settings, w: Trace, ops: seq<Timed>)
    requires GradesScored(w.state)
    ensures GradesScored(ServiceRun(cfg, w, ops).state)
  {
    hide GradesScored, Linked, Service.Apply, ToEvent, ServiceOutcome;
    if ops != [] {
      var b, x := ServiceRun(cfg, w, ops[..|ops| - 1]), ops[|ops| - 1];
      ScoredRun(cfg, w, ops[..|ops| - 1]);
      var now := b.clock + 1 + x.wait;
      if Linked(b.state) && Service.Apply(cfg, b.state, now, ToEvent(x.op)).Ok? {
        AcceptedScored(cfg, b.state, Service.Apply(cfg, b.state, now, ToEvent(x.op)).value, now, ToEvent(x.op));
      }
    }
  }

  /** After any shared run in which no tier moves, the next exports are the same bytes on those conditions. */
  lemma RunBytes(cfg: Settings, w: Trace, ops: seq<Timed>)
    requires Shared(cfg, w.state, w.clock) && GradesScored(w.state) && InDomainRun(cfg, w, ops) && NoMoves(cfg, w, ops)
    ensures var s := ServiceRun(cfg, w, ops).state;
            var p := PortRun(cfg, PortTrace(View(w.state), w.outcomes), w.clock, ops).0.sim;
            && Linked(s) && Port.Linked(p) && Delivery.Bounded(Delivery.Rows(s), |s.grades|)
            && (Delivery.NewDelivery(cfg, s).body == PortBytes(cfg, p)
                <==> forall i | 0 <= i < |Delivery.Rows(s)| ::
                       PortableRow(cfg, s, Delivery.Rows(s)[i]) && SameScore(cfg, s, Delivery.Rows(s)[i]))
            && (SharedScores(cfg, s) ==>
                  (Delivery.NewDelivery(cfg, s).body == PortBytes(cfg, p)
                   <==> forall i | 0 <= i < |Delivery.Rows(s)| :: PortableRow(cfg, s, Delivery.Rows(s)[i])))
  {
    hide Shared, GradesScored, InDomainRun, NoMoves, View, Linked, Port.Linked, PortBytes, PortableRow, SameScore,
      Delivery.NewDelivery, Delivery.Rows, PortRun, ServiceRun, SharedScores;
    PortRefinesService(cfg, w, ops);
    ScoredRun(cfg, w, ops);
    var w' := ServiceRun(cfg, w, ops);
    BytesView(cfg, w'.state, w'.clock);
    if SharedScores(cfg, w'.state) {
      SharedBytes(cfg, w'.state, w'.clock);
    }
  }
}
