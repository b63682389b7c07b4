/** The queries the services share: decisions, the grades of one task, the signals of one expert. */
module Tables {
  import opened Wrappers
  import opened Model
  import opened Scores
  import opened Windows

  /** Foreign keys: every grade names a task and an expert, every task its rubric versions and its holder. */
  predicate Linked(s: State) {
    && (forall g | 0 <= g < |s.grades| :: LinkedGrade(s, s.grades[g]))
    && (forall t | 0 <= t < |s.tasks| :: LinkedTask(s, s.tasks[t]))
  }

  predicate LinkedGrade(s: State, grade: Grade) {
    grade.task < |s.tasks| && grade.expert < |s.experts| && grade.rubric < |s.rubrics|
  }

  predicate LinkedTask(s: State, task: Task) {
    && task.rubric < |s.rubrics|
    && (task.pinned.Some? ==> task.pinned.value < |s.rubrics|)
    && (task.holder.Some? ==> task.holder.value < |s.experts|)
  }

  function DecisionOf(reviews: seq<Review>, g: GradeId): (d: Option<Decision>) {
    if reviews == [] then None else
      var last := reviews[|reviews| - 1];
      if last.grade == g then Some(last.decision) else DecisionOf(reviews[..|reviews| - 1], g)
  }

  function EntryOf(grade: Grade, reviews: seq<Review>, g: GradeId): (e: Entry) {
    Entry(g, grade.expert, grade.rubric, grade.weighted, grade.at, DecisionOf(reviews, g))
  }

  /** The grades of a task in submission order, each with its review: `grades_for` joined with the reviews. */
  function Entries(grades: seq<Grade>, reviews: seq<Review>, t: TaskId): (es: seq<Entry>) {
    if grades == [] then [] else
      var g := |grades| - 1;
      var rest := Entries(grades[..g], reviews, t);
      if grades[g].task == t then rest + [EntryOf(grades[g], reviews, g)] else rest
  }

  function TaskEntries(s: State, t: TaskId): (es: seq<Entry>) {
    Entries(s.grades, s.reviews, t)
  }

  lemma {:induction false} EntryIds(grades: seq<Grade>, reviews: seq<Review>, t: TaskId)
    ensures forall e <- Entries(grades, reviews, t) ::
              e.id < |grades| && grades[e.id].task == t && e == EntryOf(grades[e.id], reviews, e.id)
  {
    if grades != [] {
      EntryIds(grades[..|grades| - 1], reviews, t);
    }
  }

  ghost predicate Ascending(es: seq<Entry>) {
    forall i, j :: 0 <= i < j < |es| ==> es[i].id < es[j].id
  }

  ghost predicate IdsBelow(es: seq<Entry>, n: nat) {
    forall i | 0 <= i < |es| :: es[i].id < n
  }

  lemma {:induction false} EntryIdsAscend(grades: seq<Grade>, reviews: seq<Review>, t: TaskId)
    ensures IdsBelow(Entries(grades, reviews, t), |grades|) && Ascending(Entries(grades, reviews, t))
  {
    if grades != [] {
      EntryIdsAscend(grades[..|grades| - 1], reviews, t);
    }
  }

  /** Reviews change nothing in the entries of a task but the decisions. */
  lemma {:induction false} EntriesUnder(grades: seq<Grade>, r1: seq<Review>, r2: seq<Review>, t: TaskId)
    ensures |Entries(grades, r1, t)| == |Entries(grades, r2, t)|
    ensures forall i | 0 <= i < |Entries(grades, r1, t)| ::
              Entries(grades, r2, t)[i]
              == Entries(grades, r1, t)[i].(decision := DecisionOf(r2, Entries(grades, r1, t)[i].id))
  {
    if grades != [] {
      EntriesUnder(grades[..|grades| - 1], r1, r2, t);
    }
  }

  /** Every grade of the task is among its entries. */
  lemma {:induction false} EntryPresent(grades: seq<Grade>, reviews: seq<Review>, g: GradeId) returns (i: nat)
    requires g < |grades|
    ensures var es := Entries(grades, reviews, grades[g].task); i < |es| && es[i] == EntryOf(grades[g], reviews, g)
  {
    if g == |grades| - 1 {
      i := |Entries(grades, reviews, grades[g].task)| - 1;
    } else {
      i := EntryPresent(grades[..|grades| - 1], reviews, g);
    }
  }

  lemma DecisionAppend(reviews: seq<Review>, r: Review, g: GradeId)
    ensures DecisionOf(reviews + [r], g) == if r.grade == g then Some(r.decision) else DecisionOf(reviews, g)
  {
    assert (reviews + [r])[..|reviews|] == reviews;
  }

  lemma EntriesAppend(grades: seq<Grade>, reviews: seq<Review>, x: Grade, t: TaskId)
    ensures Entries(grades + [x], reviews, t)
         == Entries(grades, reviews, t) + if x.task == t then [EntryOf(x, reviews, |grades|)] else []
  {
    assert (grades + [x])[..|grades|] == grades;
  }

  /** Reviews name grades that exist. */
  predicate ReviewsLinked(grades: seq<Grade>, reviews: seq<Review>) {
    forall i | 0 <= i < |reviews| :: reviews[i].grade < |grades|
  }

  lemma {:induction false} Undecided(reviews: seq<Review>, g: GradeId)
    ensures DecisionOf(reviews, g) == None <==> forall i | 0 <= i < |reviews| :: reviews[i].grade != g
  {
    if reviews != [] {
      Undecided(reviews[..|reviews| - 1], g);
    }
  }

  function UnrejectedOf(es: seq<Entry>): (r: seq<Entry>) {
    if es == [] then [] else
      var rest := UnrejectedOf(es[..|es| - 1]);
      if Unrejected(es[|es| - 1]) then rest + [es[|es| - 1]] else rest
  }

  function ApprovedOf(es: seq<Entry>): (r: seq<Entry>) {
    if es == [] then [] else
      var rest := ApprovedOf(es[..|es| - 1]);
      if es[|es| - 1].decision == Some(Approve) then rest + [es[|es| - 1]] else rest
  }

  function RoundOf(rounds: map<TaskId, Round>, t: TaskId): (r: Option<Round>) {
    if t in rounds then Some(rounds[t]) else None
  }

  predicate HasGraded(grades: seq<Grade>, t: TaskId, e: ExpertId) {
    exists g | 0 <= g < |grades| :: grades[g].task == t && grades[g].expert == e
  }

  predicate HasPayout(payouts: seq<Payout>, g: GradeId) {
    exists i | 0 <= i < |payouts| :: payouts[i].grade == g
  }

  // ----- the signals of one expert, newest first -------------------------------------

  /** Reviewer decisions on the expert's grades, newest first. */
  function ReviewSignals(grades: seq<Grade>, reviews: seq<Review>, e: ExpertId): (r: seq<Signal>) {
    if reviews == [] then [] else
      var last := reviews[|reviews| - 1];
      var rest := ReviewSignals(grades, reviews[..|reviews| - 1], e);
      if last.grade < |grades| && grades[last.grade].expert == e
      then [Signal(last.at, last.decision == Approve)] + rest else rest
  }

  /** The expert's attention checks, newest first. */
  function CheckSignals(checks: seq<Check>, e: ExpertId): (r: seq<Signal>) {
    if checks == [] then [] else
      var last := checks[|checks| - 1];
      var rest := CheckSignals(checks[..|checks| - 1], e);
      if last.expert == e then [Signal(last.at, last.passed)] + rest else rest
  }
}
