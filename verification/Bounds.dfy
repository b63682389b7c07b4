/** How much work a fixed set of tasks and experts can hold. */
module Bounds {
  import opened Wrappers
  import opened Model
  import opened Scores
  import opened Tables
  import opened TaskInvariant
  import opened Invariant

  /** Distinct naturals below n are at most n. */
  lemma {:induction false} DistinctBelow(xs: seq<nat>, n: nat)
    requires forall i | 0 <= i < |xs| :: xs[i] < n
    requires forall i, j :: 0 <= i < j < |xs| ==> xs[i] != xs[j]
    ensures |xs| <= n
  {
    if xs != [] {
      assert xs[0] < n;
      if n - 1 in xs {
        var i :| 0 <= i < |xs| && xs[i] == n - 1;
        var rest := xs[..i] + xs[i + 1..];
        DistinctBelow(rest, n - 1);
      } else {
        DistinctBelow(xs, n - 1);
      }
    }
  }

  lemma GradesPerTask(cfg: Settings, s: State, clock: int, t: TaskId)
    requires Inv(cfg, s, clock)
    ensures |TaskEntries(s, t)| <= |s.experts|
  {
    var es := TaskEntries(s, t);
    EntryIds(s.grades, s.reviews, t);
    EntryIdsAscend(s.grades, s.reviews, t);
    forall i, j | 0 <= i < j < |es| ensures es[i].expert != es[j].expert {
      assert es[i] in es && es[j] in es && es[i].id < es[j].id;
    }
    var authors := Authors(es);
    forall i | 0 <= i < |es| ensures authors[i] < |s.experts| {
      assert es[i] in es;
    }
    DistinctBelow(authors, |s.experts|);
  }

  /** Grades of the first m tasks. */
  function CountGrades(grades: seq<Grade>, m: nat): (r: nat) {
    if grades == [] then 0 else CountGrades(grades[..|grades| - 1], m) + if grades[|grades| - 1].task < m then 1 else 0
  }

  lemma {:induction false} GradesStep(grades: seq<Grade>, reviews: seq<Review>, m: nat)
    ensures CountGrades(grades, m + 1) == CountGrades(grades, m) + |Entries(grades, reviews, m)|
  {
    if grades != [] {
      GradesStep(grades[..|grades| - 1], reviews, m);
    }
  }

  lemma {:induction false} GradesNone(grades: seq<Grade>)
    ensures CountGrades(grades, 0) == 0
  {
    if grades != [] {
      GradesNone(grades[..|grades| - 1]);
    }
  }

  lemma {:induction false} GradesAll(grades: seq<Grade>, m: nat)
    requires forall g | 0 <= g < |grades| :: grades[g].task < m
    ensures CountGrades(grades, m) == |grades|
  {
    if grades != [] {
      GradesAll(grades[..|grades| - 1], m);
    }
  }

  lemma {:induction false} GradesOfFirst(cfg: Settings, s: State, clock: int, m: nat)
    requires Inv(cfg, s, clock)
    ensures CountGrades(s.grades, m) <= m * |s.experts|
  {
    hide Inv, Entries;
    if m == 0 {
      GradesNone(s.grades);
    } else {
      GradesOfFirst(cfg, s, clock, m - 1);
      GradesStep(s.grades, s.reviews, m - 1);
      GradesPerTask(cfg, s, clock, m - 1);
      assert m * |s.experts| == (m - 1) * |s.experts| + |s.experts|;
    }
  }

  /** At most one grade for each task and expert, and at most one review for each grade. */
  lemma WorkBounded(cfg: Settings, s: State, clock: int)
    requires Inv(cfg, s, clock)
    ensures |s.reviews| <= |s.grades| <= |s.tasks| * |s.experts|
  {
    hide TasksOk;
    GradesAll(s.grades, |s.tasks|);
    GradesOfFirst(cfg, s, clock, |s.tasks|);
    var reviewed := seq(|s.reviews|, i requires 0 <= i < |s.reviews| => s.reviews[i].grade);
    DistinctBelow(reviewed, |s.grades|);
  }

  /** How often a reviewer has rejected a grade of the task. */
  function Rejections(es: seq<Entry>): (r: nat)
    ensures r <= |es|
  {
    if es == [] then 0 else Rejections(es[..|es| - 1]) + if es[|es| - 1].decision == Some(Reject) then 1 else 0
  }

  /** At most as many grades of a task are rejected as there are experts. */
  lemma RejectionsBounded(cfg: Settings, s: State, clock: int, t: TaskId)
    requires Inv(cfg, s, clock)
    ensures Rejections(TaskEntries(s, t)) <= |s.experts|
  {
    GradesPerTask(cfg, s, clock, t);
  }
}
