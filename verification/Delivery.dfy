/** panelist/services/delivery.py: which grades an export carries, and in which order. */
module Delivery {
  import opened Wrappers
  import opened Model
  import opened Tables
  import Fips
  import Floats
  import Json
  import Jsonl
  import Numbers
  import Weighing
  import DeliveryRows = Rows

  /** Approved, not golden, and the chosen grade where the task has a round. */
  predicate Delivered(s: State, g: GradeId)
    requires g < |s.grades| && s.grades[g].task < |s.tasks|
  {
    var t := s.grades[g].task;
    && DecisionOf(s.reviews, g) == Some(Approve)
    && !s.tasks[t].golden
    && (t in s.rounds ==> s.rounds[t].delivered == Some(g))
  }

  predicate Bounded(ids: seq<GradeId>, n: nat) {
    forall i | 0 <= i < |ids| :: ids[i] < n
  }

  function Selected(s: State, n: nat): (r: seq<GradeId>)
    requires Linked(s) && n <= |s.grades|
    ensures Bounded(r, n)
  {
    if n == 0 then [] else
      Selected(s, n - 1) + (if Delivered(s, n - 1) then [n - 1] else [])
  }

  /** ORDER BY task sequence, then expert. */
  predicate RowBefore(grades: seq<Grade>, a: GradeId, b: GradeId)
    requires a < |grades| && b < |grades|
  {
    grades[a].task < grades[b].task || (grades[a].task == grades[b].task && grades[a].expert <= grades[b].expert)
  }

  function InsertRow(grades: seq<Grade>, g: GradeId, rows: seq<GradeId>): (r: seq<GradeId>)
    requires g < |grades| && Bounded(rows, |grades|)
    ensures multiset(r) == multiset(rows) + multiset{g}
    ensures Bounded(r, |grades|)
  {
    if rows == [] then [g]
    else if RowBefore(grades, g, rows[0]) then [g] + rows
    else
      var rest := InsertRow(grades, g, rows[1..]);
      assert rows == [rows[0]] + rows[1..];
      [rows[0]] + rest
  }

  function SortRows(grades: seq<Grade>, ids: seq<GradeId>): (r: seq<GradeId>)
    requires Bounded(ids, |grades|)
    ensures multiset(r) == multiset(ids)
    ensures Bounded(r, |grades|)
  {
    if ids == [] then [] else
      assert ids == [ids[0]] + ids[1..];
      InsertRow(grades, ids[0], SortRows(grades, ids[1..]))
  }

  function Rows(s: State): (r: seq<GradeId>)
    requires Linked(s)
    ensures Bounded(r, |s.grades|)
  {
    SortRows(s.grades, Selected(s, |s.grades|))
  }

  function MaxVersion(deliveries: seq<Model.Delivery>): (r: nat) {
    if deliveries == [] then 0 else
      var last, rest := deliveries[|deliveries| - 1].version, MaxVersion(deliveries[..|deliveries| - 1]);
      if last > rest then last else rest
  }

  // ----- the contents of a row ----------------------------------------------------------------------------

  /** The digits of the double nearest to a real. */
  function Digits(cfg: Settings, x: real): (r: Numbers.Double) {
    cfg.columns.floats.digits(Floats.Of(cfg.columns.floats, x))
  }

  /** The digits of the weighted score the service stored with a grade. */
  function StoredDigits(cfg: Settings, s: State, g: GradeId): (r: Numbers.Double)
    requires Linked(s) && g < |s.grades|
  {
    var grade := s.grades[g];
    cfg.columns.floats.digits(
      Weighing.ServiceScore(cfg.columns.floats, s.rubrics[grade.rubric].criteria, grade.scores))
  }

  /** The scores in the order of the criteria, one a key. */
  function ScoreList(cfg: Settings, criteria: seq<Criterion>, scores: ScoreSheet): (r: seq<(Key, Numbers.Double)>) {
    if criteria == [] then [] else
      var c, rest := criteria[0], ScoreList(cfg, criteria[1..], scores);
      if c.key !in scores || exists d <- criteria[1..] :: d.key == c.key then rest
      else [(c.key, Digits(cfg, scores[c.key]))] + rest
  }

  function Contents(cfg: Settings, s: State, g: GradeId): (c: DeliveryRows.Contents)
    requires Linked(s) && g < |s.grades|
  {
    var grade := s.grades[g];
    var rubric := s.rubrics[grade.rubric];
    var round := if grade.task in s.rounds then Some(s.rounds[grade.task]) else None;
    DeliveryRows.Contents(
      cfg.columns.task(grade.task), s.tasks[grade.task].kind, cfg.columns.rubric(grade.rubric), rubric.name,
      rubric.version, cfg.columns.expert(grade.expert), s.experts[grade.expert].tier,
      ScoreList(cfg, rubric.criteria, grade.scores), StoredDigits(cfg, s, g), cfg.columns.grade(g),
      if round == None then None
      else Some((round.value.status, round.value.count, Digits(cfg, round.value.spread))))
  }

  /** The rows of an export, as `_rows` yields them. */
  function RowValues(cfg: Settings, s: State): (r: seq<Json.Json>)
    requires Linked(s)
    ensures |r| == |Rows(s)|
  {
    var rows := Rows(s);
    seq(|rows|, i requires 0 <= i < |rows| => DeliveryRows.Row(Numbers.Python, Contents(cfg, s, rows[i])))
  }

  function NewDelivery(cfg: Settings, s: State): (d: Model.Delivery)
    requires Linked(s)
  {
    var values := RowValues(cfg, s);
    Model.Delivery(MaxVersion(s.deliveries) + 1, Rows(s), Jsonl.ExportBytes(Numbers.Python, values),
                   Jsonl.ExportRecord(Numbers.Python, values))
  }

  function Export(cfg: Settings, s: State): (r: State)
    requires Linked(s)
  {
    s.(deliveries := s.deliveries + [NewDelivery(cfg, s)])
  }

  method BuildJsonl(db: Session, cfg: Settings) returns (body: seq<Fips.Byte>, count: nat)
    requires Linked(db.Snapshot())
    ensures body == Jsonl.ExportBytes(Numbers.Python, RowValues(cfg, db.Snapshot())) && count == |Rows(db.Snapshot())|
  {
    hide Rows, Jsonl.ExportBytes, Contents, DeliveryRows.Row;
    var values := RowValues(cfg, db.Snapshot());
    body, count := Jsonl.ExportBytes(Numbers.Python, values), |values|;
  }

  method ExportRows(db: Session, cfg: Settings) returns (delivery: Model.Delivery)
    requires Linked(db.Snapshot())
    modifies db
    ensures db.Snapshot() == Export(cfg, old(db.Snapshot())) && delivery == NewDelivery(cfg, old(db.Snapshot()))
  {
    hide Rows, Jsonl.ExportBytes, RowValues, Jsonl.Checksum, MaxVersion;
    var body, count := BuildJsonl(db, cfg);
    var checksum := Jsonl.Checksum(body);
    var version := MaxVersion(db.deliveries) + 1;
    delivery := Model.Delivery(version, Rows(db.Snapshot()), body, Jsonl.Record(checksum, count, |body|));
    db.deliveries := db.deliveries + [delivery];
  }

  /** An export is recorded as what it is: reading its object back finds the checksum, the rows and the size. */
  predicate Recorded(d: Model.Delivery) {
    Jsonl.Verifies(d.record, d.body) && d.record.rowCount == |d.rows|
  }

  lemma NewRecorded(cfg: Settings, s: State)
    requires Linked(s)
    ensures Recorded(NewDelivery(cfg, s))
  {
    hide Rows, Jsonl.ExportBytes, Jsonl.Verifies;
    var values := RowValues(cfg, s);
    Jsonl.ExportVerifies(values, Jsonl.ExportBytes(Numbers.Python, values));
    assert Jsonl.ExportRecord(Numbers.Python, values).rowCount == |values|;
  }
}
