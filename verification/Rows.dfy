/** One row of a delivery as JSON: what the service and the port put in it, and in which order they sort its tags. */
module Rows {
  import opened Wrappers
  import opened Numbers
  import opened Json
  import M = Model

  /** The values of a row, from whichever tables. */
  datatype Contents = Contents(
    task: M.TaskColumns,
    kind: string,
    rubric: Text,
    name: string,
    version: int,
    expert: Text,
    tier: M.Tier,
    scores: seq<(M.Key, Double)>,
    weighted: Double,
    grade: M.GradeColumns,
    consensus: Option<(M.RoundStatus, int, Double)>)

  function TierText(t: M.Tier): (r: string) {
    match t
    case Junior => "junior"
    case Senior => "senior"
    case Lead => "lead"
  }

  function StatusText(t: M.RoundStatus): (r: string) {
    match t
    case Agreed => "agreed"
    case Adjudicating => "adjudicating"
    case Adjudicated => "adjudicated"
  }

  function InsertText(rt: Runtime, x: Text, xs: seq<Text>): (r: seq<Text>)
    ensures multiset(r) == multiset(xs) + multiset{x}
  {
    if xs == [] || KeyBefore(rt, x, xs[0]) then [x] + xs else
      assert xs == [xs[0]] + xs[1..];
      [xs[0]] + InsertText(rt, x, xs[1..])
  }

  /** `sorted(tags)`, and `[...tags].sort()`. */
  function SortTexts(rt: Runtime, xs: seq<Text>): (r: seq<Text>)
    ensures multiset(r) == multiset(xs)
  {
    if xs == [] then [] else
      assert xs == [xs[0]] + xs[1..];
      InsertText(rt, xs[0], SortTexts(rt, xs[1..]))
  }

  function TextItems(xs: seq<Text>): (r: Items) {
    if xs == [] then Nil else Cons(Str(xs[0]), TextItems(xs[1..]))
  }

  function ScoreFields(scores: seq<(M.Key, Double)>): (r: Fields) {
    if scores == [] then End
    else Field(Units(scores[0].0), Num(Float(scores[0].1)), ScoreFields(scores[1..]))
  }

  function FieldList(fields: seq<(string, Json)>): (r: Fields) {
    if fields == [] then End else Field(Units(fields[0].0), fields[0].1, FieldList(fields[1..]))
  }

  function ConsensusObject(c: Option<(M.RoundStatus, int, Double)>): (r: Json) {
    if c == None then Null else
      var (status, graders, spread) := c.value;
      Obj(FieldList([("status", Str(Units(StatusText(status)))), ("graders", Num(Whole(graders))),
                     ("spread", Num(Float(spread)))]))
  }

  function RubricObject(c: Contents): (r: Json) {
    Obj(FieldList([("id", Str(c.rubric)), ("name", Str(Units(c.name))), ("version", Num(Whole(c.version)))]))
  }

  function TaskFields(rt: Runtime, c: Contents): (r: seq<(string, Json)>) {
    [("task_id", Str(c.task.id)),
     ("external_ref", if c.task.externalRef == None then Null else Str(c.task.externalRef.value)),
     ("task_type", Str(Units(c.kind))),
     ("required_tags", Arr(TextItems(SortTexts(rt, c.task.tags)))),
     ("prompt", Str(c.task.prompt)),
     ("responses", c.task.responses)]
  }

  function GradeFields(c: Contents): (r: seq<(string, Json)>) {
    [("rubric", RubricObject(c)),
     ("expert_id", Str(c.expert)),
     ("expert_tier", Str(Units(TierText(c.tier)))),
     ("scores", Obj(ScoreFields(c.scores))),
     ("weighted_score", Num(Float(c.weighted))),
     ("rationale", Str(c.grade.rationale)),
     ("time_spent_seconds", Num(Whole(c.grade.seconds))),
     ("consensus", ConsensusObject(c.consensus))]
  }

  function Row(rt: Runtime, c: Contents): (r: Json) {
    Obj(FieldList(TaskFields(rt, c) + GradeFields(c)))
  }
}
