/** What an export carries: one row for each approved task that has a deliverable grade, in task order. */
module Exports {
  import opened Wrappers
  import opened Model
  import opened Tables
  import opened TaskInvariant
  import opened Invariant
  import opened Statuses
  import opened Ops
  import Delivery

  // ----- the rows of one task ----------------------------------------------------------------

  /** An approved regular task whose selected grade can be delivered. */
  predicate Deliverable(s: State, t: TaskId)
    requires t < |s.tasks|
  {
    ApprovedRegular(s.tasks[t]) && !Undelivered(s, t)
  }

  lemma SingleRow(cfg: Settings, s: State, clock: int, t: TaskId, g: GradeId)
    requires Inv(cfg, s, clock) && g < |s.grades| && s.grades[g].task == t
    requires !s.tasks[t].golden && s.tasks[t].required == 1
    ensures var es := TaskEntries(s, t);
            && es != []
            && (DecisionOf(s.reviews, g) == Some(Approve) <==> s.tasks[t].status == Approved && g == es[|es| - 1].id)
  {
    var es := TaskEntries(s, t);
    assert TaskOk(cfg, s.tasks[t], es, RoundOf(s.rounds, t));
    var i := EntryPresent(s.grades, s.reviews, g);
    EntryIdsAscend(s.grades, s.reviews, t);
    if i < |es| - 1 {
      assert es[..|es| - 1][i] == es[i] && es[i].id < es[|es| - 1].id;
    }
  }

  lemma ApprovedSingleHasRow(cfg: Settings, s: State, clock: int, t: TaskId)
    requires Inv(cfg, s, clock) && t < |s.tasks| && !s.tasks[t].golden && s.tasks[t].required == 1
    requires s.tasks[t].status == Approved
    ensures var es := TaskEntries(s, t);
            es != [] && es[|es| - 1].id < |s.grades| && s.grades[es[|es| - 1].id].task == t
  {
    var es := TaskEntries(s, t);
    assert TaskOk(cfg, s.tasks[t], es, RoundOf(s.rounds, t));
    EntryIds(s.grades, s.reviews, t);
    assert es[|es| - 1] in es;
  }

  /** The grade the export carries for a task, if it carries any. */
  function RowOf(s: State, t: TaskId): (r: Option<GradeId>)
    requires t < |s.tasks|
  {
    if !Deliverable(s, t) then None
    else if t in s.rounds then s.rounds[t].delivered
    else
      var es := TaskEntries(s, t);
      if es == [] then None else Some(es[|es| - 1].id)
  }

  lemma ApprovedHere(s: State, g: GradeId)
    requires g < |s.grades| && DecisionOf(s.reviews, g) == Some(Approve)
    ensures SomeDecision(TaskEntries(s, s.grades[g].task), Approve)
  {
    var i := EntryPresent(s.grades, s.reviews, g);
    assert TaskEntries(s, s.grades[g].task)[i].decision == Some(Approve);
  }

  /** A grade is selected for delivery exactly when it is the row of its task. */
  lemma SelectedIsRow(cfg: Settings, s: State, clock: int, g: GradeId)
    requires Inv(cfg, s, clock) && g < |s.grades|
    ensures Delivery.Delivered(s, g) <==> RowOf(s, s.grades[g].task) == Some(g)
  {
    hide TaskOk, Entries;
    var t := s.grades[g].task;
    if !s.tasks[t].golden {
      if s.tasks[t].required == 1 {
        SingleGrader(cfg, s, clock, t);
        SingleRow(cfg, s, clock, t, g);
      } else {
        assert s.tasks[t].required >= 1 by {
          assert TaskOk(cfg, s.tasks[t], TaskEntries(s, t), RoundOf(s.rounds, t));
          RequiredPositive(cfg, s, t);
        }
        MultiGrader(cfg, s, clock, t);
        if DecisionOf(s.reviews, g) == Some(Approve) {
          ApprovedHere(s, g);
        }
      }
    }
  }

  lemma RequiredPositive(cfg: Settings, s: State, t: TaskId)
    requires TasksOk(cfg, s) && t < |s.tasks|
    ensures s.tasks[t].required >= 1
  {
    assert TaskOk(cfg, s.tasks[t], TaskEntries(s, t), RoundOf(s.rounds, t));
  }

  /** Every deliverable task has its row, a grade of that task. */
  lemma DeliverableHasRow(cfg: Settings, s: State, clock: int, t: TaskId)
    requires Inv(cfg, s, clock) && t < |s.tasks| && Deliverable(s, t)
    ensures RowOf(s, t).Some? && RowOf(s, t).value < |s.grades| && s.grades[RowOf(s, t).value].task == t
  {
    hide TaskOk, Entries;
    RequiredPositive(cfg, s, t);
    if t in s.rounds {
      MultiRound(cfg, s, clock, t);
      DeliveredGrade(cfg, s, clock, t);
    } else if s.tasks[t].required == 1 {
      ApprovedSingleHasRow(cfg, s, clock, t);
    } else {
      MultiGrader(cfg, s, clock, t);
    }
  }

  /** An approved task is not waiting for an adjudicator. */
  lemma MultiRound(cfg: Settings, s: State, clock: int, t: TaskId)
    requires Inv(cfg, s, clock) && t in s.rounds && t < |s.tasks| && s.tasks[t].status == Approved
    ensures s.rounds[t].status != Adjudicating
  {
    RoundOfMulti(cfg, s, clock, t);
  }

  // ----- counting ---------------------------------------------------------------------------------

  /** Selected grades among the first n, of the first m tasks. */
  function CountSelected(s: State, n: nat, m: nat): (r: nat)
    requires Linked(s) && n <= |s.grades|
  {
    if n == 0 then 0 else
      CountSelected(s, n - 1, m) + if Delivery.Delivered(s, n - 1) && s.grades[n - 1].task < m then 1 else 0
  }

  /** Selected grades among the first n, of the task t. */
  function CountOfTask(s: State, n: nat, t: TaskId): (r: nat)
    requires Linked(s) && n <= |s.grades|
  {
    if n == 0 then 0 else
      CountOfTask(s, n - 1, t) + if Delivery.Delivered(s, n - 1) && s.grades[n - 1].task == t then 1 else 0
  }

  lemma {:induction false} SelectedStep(s: State, n: nat, m: nat)
    requires Linked(s) && n <= |s.grades|
    ensures CountSelected(s, n, m + 1) == CountSelected(s, n, m) + CountOfTask(s, n, m)
  {
    hide Delivery.Delivered;
    if n > 0 {
      SelectedStep(s, n - 1, m);
    }
  }

  lemma {:induction false} SelectedNone(s: State, n: nat)
    requires Linked(s) && n <= |s.grades|
    ensures CountSelected(s, n, 0) == 0
  {
    if n > 0 {
      SelectedNone(s, n - 1);
    }
  }

  lemma {:induction false} SelectedAll(s: State, n: nat)
    requires Linked(s) && n <= |s.grades|
    ensures |Delivery.Selected(s, n)| == CountSelected(s, n, |s.tasks|)
  {
    hide Delivery.Delivered;
    if n > 0 {
      SelectedAll(s, n - 1);
    }
  }

  lemma {:induction false} OneOfTask(cfg: Settings, s: State, clock: int, n: nat, t: TaskId)
    requires Inv(cfg, s, clock) && n <= |s.grades| && t < |s.tasks|
    ensures CountOfTask(s, n, t)
         == if RowOf(s, t).Some? && RowOf(s, t).value < n && s.grades[RowOf(s, t).value].task == t then 1 else 0
  {
    hide TasksOk, GradesOk, ReviewsOk, RowOf, Delivery.Delivered;
    if n > 0 {
      OneOfTask(cfg, s, clock, n - 1, t);
      SelectedIsRow(cfg, s, clock, n - 1);
    }
  }

  lemma {:induction false} SelectedCounts(cfg: Settings, s: State, clock: int, m: nat)
    requires Inv(cfg, s, clock) && m <= |s.tasks|
    ensures CountSelected(s, |s.grades|, m) + CountUndelivered(s, m) == CountApproved(s.tasks, m)
  {
    hide TasksOk, GradesOk, ReviewsOk, RowOf, Undelivered;
    if m == 0 {
      SelectedNone(s, |s.grades|);
    } else {
      SelectedCounts(cfg, s, clock, m - 1);
      SelectedStep(s, |s.grades|, m - 1);
      OneOfTask(cfg, s, clock, |s.grades|, m - 1);
      RowOfDeliverable(s, m - 1);
      if Deliverable(s, m - 1) {
        DeliverableHasRow(cfg, s, clock, m - 1);
      }
    }
  }

  lemma RowOfDeliverable(s: State, t: TaskId)
    requires t < |s.tasks|
    ensures RowOf(s, t).Some? ==> Deliverable(s, t)
    ensures Undelivered(s, t) ==> ApprovedRegular(s.tasks[t])
  {
  }

  // ----- the sorted rows ---------------------------------------------------------------------------

  ghost predicate InRowOrder(grades: seq<Grade>, rows: seq<GradeId>) {
    forall i, j :: 0 <= i < j < |rows| && rows[i] < |grades| && rows[j] < |grades| ==>
      Delivery.RowBefore(grades, rows[i], rows[j])
  }

  lemma {:induction false} InsertSorted(grades: seq<Grade>, g: GradeId, rows: seq<GradeId>)
    requires g < |grades| && Delivery.Bounded(rows, |grades|) && InRowOrder(grades, rows)
    ensures InRowOrder(grades, Delivery.InsertRow(grades, g, rows))
  {
    if rows != [] && !Delivery.RowBefore(grades, g, rows[0]) {
      var rest := Delivery.InsertRow(grades, g, rows[1..]);
      InsertSorted(grades, g, rows[1..]);
      forall i | 0 <= i < |rest| ensures Delivery.RowBefore(grades, rows[0], rest[i]) {
        assert rest[i] in multiset(rest);
        assert rest[i] == g || rest[i] in rows[1..];
      }
    } else if rows != [] {
      forall i | 0 <= i < |rows| ensures Delivery.RowBefore(grades, g, rows[i]) {
      }
    }
  }

  lemma {:induction false} SortSorted(grades: seq<Grade>, ids: seq<GradeId>)
    requires Delivery.Bounded(ids, |grades|)
    ensures InRowOrder(grades, Delivery.SortRows(grades, ids))
  {
    if ids != [] {
      SortSorted(grades, ids[1..]);
      InsertSorted(grades, ids[0], Delivery.SortRows(grades, ids[1..]));
    }
  }

  lemma {:induction false} SelectedMembers(s: State, n: nat)
    requires Linked(s) && n <= |s.grades|
    ensures forall g | 0 <= g < n :: g in Delivery.Selected(s, n) <==> Delivery.Delivered(s, g)
    ensures forall i, j :: 0 <= i < j < |Delivery.Selected(s, n)| ==>
              Delivery.Selected(s, n)[i] < Delivery.Selected(s, n)[j]
  {
    hide Delivery.Delivered;
    if n > 0 {
      SelectedMembers(s, n - 1);
    }
  }

  /** Rows and the tasks skipped for want of an approved selection add up to the approved tasks. */
  lemma RowsAccounted(cfg: Settings, s: State, clock: int)
    requires Inv(cfg, s, clock)
    ensures |Delivery.Rows(s)| + CountUndelivered(s, |s.tasks|) == CountApproved(s.tasks, |s.tasks|)
  {
    hide TasksOk, GradesOk, ReviewsOk, RowOf, Undelivered;
    SelectedAll(s, |s.grades|);
    SelectedCounts(cfg, s, clock, |s.tasks|);
    var rows, ids := Delivery.Rows(s), Delivery.Selected(s, |s.grades|);
    assert |multiset(rows)| == |rows| && |multiset(ids)| == |ids|;
  }

  lemma RowsMember(s: State, g: GradeId)
    requires Linked(s)
    ensures g in Delivery.Rows(s) <==> g < |s.grades| && Delivery.Delivered(s, g)
  {
    hide Delivery.Delivered;
    SelectedMembers(s, |s.grades|);
    var rows, ids := Delivery.Rows(s), Delivery.Selected(s, |s.grades|);
    assert g in rows <==> g in multiset(rows);
    assert g in ids <==> g in multiset(ids);
  }

  lemma {:induction false} CountOnce(ids: seq<GradeId>, g: GradeId)
    requires forall i, j :: 0 <= i < j < |ids| ==> ids[i] < ids[j]
    ensures multiset(ids)[g] <= 1
  {
    if ids != [] {
      var front, last := ids[..|ids| - 1], ids[|ids| - 1];
      CountOnce(front, g);
      assert ids == front + [last];
      assert last == g ==> g !in front;
    }
  }

  lemma CountTwice(rows: seq<GradeId>, i: nat, j: nat)
    requires i < j < |rows| && rows[i] == rows[j]
    ensures multiset(rows)[rows[i]] >= 2
  {
    assert rows == rows[..j] + [rows[j]] + rows[j + 1..];
    assert rows[i] in rows[..j];
  }

  /** At most one row a task: the rows strictly ascend by task. */
  lemma RowsAscend(cfg: Settings, s: State, clock: int, i: nat, j: nat)
    requires Inv(cfg, s, clock) && i < j < |Delivery.Rows(s)|
    ensures var rows := Delivery.Rows(s);
            rows[i] < |s.grades| && rows[j] < |s.grades| && s.grades[rows[i]].task < s.grades[rows[j]].task
  {
    hide TasksOk, GradesOk, ReviewsOk, RowOf;
    var rows, ids := Delivery.Rows(s), Delivery.Selected(s, |s.grades|);
    SortSorted(s.grades, ids);
    SelectedMembers(s, |s.grades|);
    RowsMember(s, rows[i]);
    RowsMember(s, rows[j]);
    assert rows[i] in rows && rows[j] in rows;
    SelectedIsRow(cfg, s, clock, rows[i]);
    SelectedIsRow(cfg, s, clock, rows[j]);
    assert Delivery.RowBefore(s.grades, rows[i], rows[j]);
    if s.grades[rows[i]].task == s.grades[rows[j]].task {
      CountTwice(rows, i, j);
      CountOnce(ids, rows[i]);
      assert false;
    }
  }
}
