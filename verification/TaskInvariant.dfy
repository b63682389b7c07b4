/** What the row of a task must be, given its grades with their reviews and its consensus round. */
module TaskInvariant {
  import opened Wrappers
  import opened Model
  import opened Scores
  import opened Tables
  import Routing
  import Grading
  import Consensus
  import Rubrics

  ghost predicate AllRejected(es: seq<Entry>) {
    forall i | 0 <= i < |es| :: es[i].decision == Some(Reject)
  }

  ghost predicate NoneReviewed(es: seq<Entry>) {
    forall i | 0 <= i < |es| :: es[i].decision == None
  }

  ghost predicate SomeDecision(es: seq<Entry>, d: Decision) {
    exists i | 0 <= i < |es| :: es[i].decision == Some(d)
  }

  ghost predicate Holds(es: seq<Entry>, g: GradeId) {
    exists i | 0 <= i < |es| :: es[i].id == g && Unrejected(es[i])
  }

  // ----- the lease ------------------------------------------------------------------

  /** Who holds the task after this history; None for a history no lease protocol produces. */
  function Replay(h: seq<LeaseEvent>): (r: Option<Option<ExpertId>>) {
    if h == [] then Some(None) else
      var last, before := h[|h| - 1], Replay(h[..|h| - 1]);
      if before == None then None else
        match last
        case Granted(e) => if before.value == None then Some(Some(e)) else None
        case Released(e) => if before.value == Some(e) then Some(None) else None
        case Graded(e) => if before.value == Some(e) then Some(None) else None
        case Reclaimed => if before.value.Some? then Some(None) else None
  }

  /** The experts who graded the task, in order. */
  function Graders(h: seq<LeaseEvent>): (r: seq<ExpertId>) {
    if h == [] then [] else
      var last, rest := h[|h| - 1], Graders(h[..|h| - 1]);
      if last.Graded? then rest + [last.expert] else rest
  }

  function Authors(es: seq<Entry>): (r: seq<ExpertId>) {
    seq(|es|, i requires 0 <= i < |es| => es[i].expert)
  }

  function Reclaims(h: seq<LeaseEvent>): (r: nat) {
    if h == [] then 0 else Reclaims(h[..|h| - 1]) + if h[|h| - 1].Reclaimed? then 1 else 0
  }

  ghost predicate LeaseOk(task: Task, es: seq<Entry>) {
    && (task.status == Assigned <==> task.holder.Some?)
    && (task.status == Assigned <==> task.assignedAt.Some?)
    && (task.status == Assigned <==> task.lease.Some?)
    && (task.status == Assigned ==> task.pinned == Some(task.rubric))
    && Replay(task.history) == Some(task.holder)
    && Graders(task.history) == Authors(es)
    && Reclaims(task.history) == task.reclaims
  }

  // ----- status and grades --------------------------------------------------------------

  ghost predicate GoldenOk(task: Task, es: seq<Entry>, round: Option<Round>) {
    (task.status == Queued || task.status == Assigned) && round == None && task.received == |es|
  }

  ghost predicate SingleOk(task: Task, es: seq<Entry>, round: Option<Round>) {
    && round == None
    && match task.status
       case Queued => task.received == 0 && AllRejected(es)
       case Assigned => task.received == 0 && AllRejected(es)
       case Submitted => task.received == 1 && es != [] && AllRejected(es[..|es| - 1]) && es[|es| - 1].decision == None
       case Approved => task.received == 1 && es != [] && AllRejected(es[..|es| - 1])
                        && es[|es| - 1].decision == Some(Approve)
       case Adjudication => false
       case Rejected => false
  }

  ghost function AgreedStatus(es: seq<Entry>): (r: TaskStatus) {
    if SomeDecision(es, Approve) then Approved
    else if SomeDecision(es, Reject) then Rejected
    else Submitted
  }

  ghost predicate RoundOk(cfg: Settings, task: Task, es: seq<Entry>, r: Round)
    requires es != []
  {
    && r.count == |es| && r.spread == Spread(es) && r.tolerance == cfg.consensusTolerance
    && match r.status
       case Agreed =>
         && r.spread <= r.tolerance
         && task.status == AgreedStatus(es)
         && (r.delivered.Some? ==> Holds(es, r.delivered.value))
         && (r.delivered.None? ==> AllRejected(es))
       case Adjudicating =>
         task.status == Adjudication && r.spread > r.tolerance && r.delivered == None && NoneReviewed(es)
       case Adjudicated =>
         && task.status == Approved && r.spread > r.tolerance
         && r.delivered.Some? && Holds(es, r.delivered.value)
         && (forall i | 0 <= i < |es| ::
               es[i].decision == Some(if es[i].id == r.delivered.value then Approve else Reject))
  }

  ghost predicate MultiOk(cfg: Settings, task: Task, es: seq<Entry>, round: Option<Round>) {
    && task.received == |es| <= task.required
    && if |es| < task.required
       then (task.status == Queued || task.status == Assigned) && round == None && NoneReviewed(es)
       else es != [] && round.Some? && RoundOk(cfg, task, es, round.value)
  }

  /** One rubric version for every grade that can be compared or delivered. */
  ghost predicate VersionOk(task: Task, es: seq<Entry>) {
    forall i | 0 <= i < |es| ::
      task.golden || task.required >= 2 || Unrejected(es[i]) ==> es[i].rubric == task.rubric
  }

  ghost predicate TaskOk(cfg: Settings, task: Task, es: seq<Entry>, round: Option<Round>) {
    && task.required >= 1
    && LeaseOk(task, es)
    && VersionOk(task, es)
    && if task.golden then GoldenOk(task, es, round)
       else if task.required == 1 then SingleOk(task, es, round)
       else MultiOk(cfg, task, es, round)
  }

  // ----- the rows the leases write ------------------------------------------------------

  lemma Append(h: seq<LeaseEvent>, ev: LeaseEvent)
    ensures (h + [ev])[..|h + [ev]| - 1] == h
  {
  }

  lemma RetargetKeeps(cfg: Settings, task: Task, es: seq<Entry>, round: Option<Round>, from: RubricId, to: RubricId)
    requires TaskOk(cfg, task, es, round)
    ensures TaskOk(cfg, Rubrics.Retargeted(task, from, to), es, round)
  {
  }

  lemma ReclaimKeeps(cfg: Settings, task: Task, es: seq<Entry>, round: Option<Round>, now: int)
    requires TaskOk(cfg, task, es, round)
    ensures TaskOk(cfg, Routing.ReclaimRow(task, now), es, round)
  {
    Append(task.history, Reclaimed);
  }

  lemma AssignKeeps(cfg: Settings, task: Task, es: seq<Entry>, round: Option<Round>, now: int, e: ExpertId)
    requires TaskOk(cfg, task, es, round) && task.status == Queued
    ensures TaskOk(cfg, Routing.AssignRow(cfg, task, now, e), es, round)
  {
    Append(task.history, Granted(e));
  }

  lemma ReleaseKeeps(cfg: Settings, task: Task, es: seq<Entry>, round: Option<Round>, e: ExpertId)
    requires TaskOk(cfg, task, es, round) && task.status == Assigned && task.holder == Some(e)
    ensures TaskOk(cfg, Routing.Unleased(task).(status := Queued, history := task.history + [Released(e)]), es, round)
  {
    Append(task.history, Released(e));
  }

  // ----- a submission -------------------------------------------------------------------

  lemma {:induction false} AllUnrejected(es: seq<Entry>)
    requires forall i | 0 <= i < |es| :: Unrejected(es[i])
    ensures UnrejectedOf(es) == es
  {
    if es != [] {
      AllUnrejected(es[..|es| - 1]);
      assert es == es[..|es| - 1] + [es[|es| - 1]];
    }
  }

  lemma {:induction false} NoUnrejected(es: seq<Entry>)
    requires AllRejected(es)
    ensures UnrejectedOf(es) == []
  {
    if es != [] {
      NoUnrejected(es[..|es| - 1]);
    }
  }

  /** The row and the round a submission leaves: `Grading.GradedRow`, then `Consensus.Evaluate` on the new entries. */
  function SubmittedRow(cfg: Settings, task: Task, es: seq<Entry>, round: Option<Round>,
        e: ExpertId): (r: (Task, Option<Round>)) {
    var row := Grading.GradedRow(task, e);
    var scored := UnrejectedOf(es);
    if row.status != Submitted || |scored| < 2 then (row, round) else
      var newRound := Consensus.NewRound(cfg, scored);
      (if newRound.status == Adjudicating then row.(status := Adjudication) else row, Some(newRound))
  }

  lemma SubmitKeepsLease(task: Task, es: seq<Entry>, x: Entry, status: TaskStatus)
    requires LeaseOk(task, es) && task.status == Assigned && task.holder == Some(x.expert) && status != Assigned
    ensures LeaseOk(Grading.GradedRow(task, x.expert).(status := status), es + [x])
  {
    Append(task.history, Graded(x.expert));
    assert Authors(es + [x]) == Authors(es) + [x.expert];
  }

  lemma SubmitSingle(cfg: Settings, task: Task, es: seq<Entry>, round: Option<Round>, x: Entry)
    requires SingleOk(task, es, round) && task.status == Assigned && !task.golden && task.required == 1
    requires x.decision == None
    ensures var (row, round') := SubmittedRow(cfg, task, es + [x], round, x.expert);
            SingleOk(row, es + [x], round')
  {
    var all := es + [x];
    assert all[..|all| - 1] == es;
    NoUnrejected(es);
  }

  /** The round opened by the last grade is as `RoundOk` wants it. */
  lemma OpenedRoundOk(cfg: Settings, row: Task, es: seq<Entry>)
    requires es != [] && NoneReviewed(es)
    requires row.status == if Consensus.NewRound(cfg, es).status == Adjudicating then Adjudication else Submitted
    ensures RoundOk(cfg, row, es, Consensus.NewRound(cfg, es))
  {
    var pick := ClosestToMean(es);
    var i :| 0 <= i < |es| && es[i] == pick;
    assert Holds(es, pick.id);
  }

  lemma SubmitMulti(cfg: Settings, task: Task, es: seq<Entry>, round: Option<Round>, x: Entry)
    requires MultiOk(cfg, task, es, round) && task.status == Assigned && !task.golden && task.required >= 2
    requires x.decision == None
    ensures var (row, round') := SubmittedRow(cfg, task, es + [x], round, x.expert);
            MultiOk(cfg, row, es + [x], round')
  {
    hide Spread, ClosestToMean, Replay, Graders;
    var all := es + [x];
    assert NoneReviewed(all);
    AllUnrejected(all);
    if |all| == task.required {
      OpenedRoundOk(cfg, SubmittedRow(cfg, task, all, round, x.expert).0, all);
    }
  }

  lemma SubmitKeeps(cfg: Settings, task: Task, es: seq<Entry>, round: Option<Round>, x: Entry)
    requires TaskOk(cfg, task, es, round) && task.status == Assigned && task.holder == Some(x.expert)
    requires x.decision == None && x.rubric == Grading.ScoredRubric(task)
    ensures var (row, round') := SubmittedRow(cfg, task, es + [x], round, x.expert);
            TaskOk(cfg, row, es + [x], round')
  {
    var (row, round') := SubmittedRow(cfg, task, es + [x], round, x.expert);
    SubmitKeepsLease(task, es, x, row.status);
    assert row == Grading.GradedRow(task, x.expert).(status := row.status);
    assert VersionOk(row, es + [x]);
    if !task.golden {
      if task.required == 1 {
        SubmitSingle(cfg, task, es, round, x);
      } else {
        SubmitMulti(cfg, task, es, round, x);
      }
    }
  }

  // ----- a review --------------------------------------------------------------------------

  /** The entries of a task once the grade g has been decided. */
  function Decided(es: seq<Entry>, g: GradeId, d: Decision): (r: seq<Entry>)
    ensures |r| == |es|
  {
    seq(|es|, i requires 0 <= i < |es| => if es[i].id == g then es[i].(decision := Some(d)) else es[i])
  }

  /** The round after a review of g: redelivered when an agreed round loses the grade it had picked. */
  function ReviewedRound(es: seq<Entry>, round: Option<Round>, g: GradeId, d: Decision): (r: Option<Round>) {
    if d == Reject && round.Some? && round.value.status == Agreed && round.value.delivered == Some(g)
    then Some(round.value.(delivered := Consensus.Redelivered(es))) else round
  }

  lemma {:induction false} UnrejectedMembers(es: seq<Entry>)
    ensures forall i | 0 <= i < |UnrejectedOf(es)| :: Unrejected(UnrejectedOf(es)[i]) && UnrejectedOf(es)[i] in es
    ensures UnrejectedOf(es) == [] <==> AllRejected(es)
  {
    if es != [] {
      UnrejectedMembers(es[..|es| - 1]);
    }
  }

  lemma {:induction false} ApprovedMembers(es: seq<Entry>)
    ensures forall i | 0 <= i < |ApprovedOf(es)| ::
              ApprovedOf(es)[i].decision == Some(Approve) && ApprovedOf(es)[i] in es
    ensures ApprovedOf(es) == [] <==> !SomeDecision(es, Approve)
  {
    if es != [] {
      ApprovedMembers(es[..|es| - 1]);
    }
  }

  /**
   * A redelivery picks a grade that is not rejected, an approved one if there is one, and none only if all are
   * rejected.
   */
  lemma RedeliveredPick(es: seq<Entry>)
    ensures var pick := Consensus.Redelivered(es);
            && (pick.Some? ==> Holds(es, pick.value))
            && (pick == None <==> AllRejected(es))
            && (SomeDecision(es, Approve) ==>
                  exists i | 0 <= i < |es| :: pick == Some(es[i].id) && es[i].decision == Some(Approve))
  {
    var pool := UnrejectedOf(es);
    UnrejectedMembers(es);
    ApprovedMembers(pool);
    var approved := ApprovedOf(pool);
    var candidates := if approved != [] then approved else pool;
    if candidates != [] {
      var pick := ClosestToMean(candidates);
      assert pick in pool && pick in es;
      var i :| 0 <= i < |es| && es[i] == pick;
      assert Holds(es, pick.id);
    }
    if SomeDecision(es, Approve) {
      var i :| 0 <= i < |es| && es[i].decision == Some(Approve);
      ApprovedSurvive(es, i);
      assert SomeDecision(pool, Approve);
    }
  }

  lemma {:induction false} ApprovedSurvive(es: seq<Entry>, i: nat)
    requires i < |es| && es[i].decision == Some(Approve)
    ensures es[i] in UnrejectedOf(es)
  {
    if i < |es| - 1 {
      ApprovedSurvive(es[..|es| - 1], i);
    }
  }

  lemma NotWider(a: seq<Entry>, b: seq<Entry>)
    requires |a| == |b| && a != [] && forall i | 0 <= i < |a| :: a[i].score == b[i].score
    ensures MaxScore(a) <= MaxScore(b) && MinScore(b) <= MinScore(a)
  {
    var hi, lo := ScoreAttained(a);
    assert b[hi] in b && b[lo] in b;
  }

  lemma SameScores(a: seq<Entry>, b: seq<Entry>)
    requires |a| == |b| && a != [] && forall i | 0 <= i < |a| :: a[i].score == b[i].score
    ensures Spread(a) == Spread(b)
  {
    NotWider(a, b);
    NotWider(b, a);
  }

  lemma ReviewSingle(task: Task, es: seq<Entry>, i: nat, d: Decision)
    requires SingleOk(task, es, None) && !task.golden && task.required == 1 && Ascending(es)
    requires i < |es| && es[i].decision == None
    ensures SingleOk(Grading.ReviewedRow(task, d), Decided(es, es[i].id, d), None)
    ensures i == |es| - 1 && task.status == Submitted
  {
    assert i == |es| - 1;
    var after := Decided(es, es[i].id, d);
    assert after[..i] == es[..i];
  }

  /** After a review the round still delivers a grade that is not rejected, or none if all are. */
  lemma ReviewedDelivery(es: seq<Entry>, round: Round, i: nat, d: Decision)
    requires i < |es| && es[i].decision == None && round.status == Agreed
    requires round.delivered.Some? ==> Holds(es, round.delivered.value)
    requires round.delivered.None? ==> AllRejected(es)
    ensures var after := Decided(es, es[i].id, d);
            var round' := ReviewedRound(after, Some(round), es[i].id, d).value;
            && round' == round.(delivered := round'.delivered)
            && (round'.delivered.Some? ==> Holds(after, round'.delivered.value))
            && (round'.delivered.None? ==> AllRejected(after))
  {
    var g, after, was := es[i].id, Decided(es, es[i].id, d), round.delivered;
    if d == Reject && was == Some(g) {
      RedeliveredPick(after);
    } else if was.Some? {
      var k :| 0 <= k < |es| && es[k].id == was.value && Unrejected(es[k]);
      assert after[k].id == was.value && Unrejected(after[k]);
    }
  }

  /** A reviewer who is not kept away from a grade of a multi-grader task meets an agreed round. */
  lemma ReviewMeetsAgreed(cfg: Settings, task: Task, es: seq<Entry>, round: Option<Round>, i: nat)
    requires MultiOk(cfg, task, es, round) && !task.golden && task.required >= 2
    requires i < |es| && es[i].decision == None && !Grading.ReviewBlocked(task)
    ensures |es| == task.required && round.Some? && round.value.status == Agreed && RoundOk(cfg, task, es, round.value)
  {
  }

  lemma ReviewRound(cfg: Settings, task: Task, es: seq<Entry>, round: Round, i: nat, d: Decision)
    requires i < |es| && es[i].decision == None && Ascending(es) && !task.golden && task.required >= 2
    requires round.status == Agreed && RoundOk(cfg, task, es, round)
    ensures var after := Decided(es, es[i].id, d);
            var round' := ReviewedRound(after, Some(round), es[i].id, d);
            round'.Some? && RoundOk(cfg, Grading.ReviewedRow(task, d), after, round'.value)
  {
    hide Spread, Holds, SomeDecision, AllRejected, Consensus.Redelivered;
    var after := Decided(es, es[i].id, d);
    SameScores(es, after);
    ReviewedStatus(es, i, d);
    ReviewedDelivery(es, round, i, d);
  }

  lemma ReviewMulti(cfg: Settings, task: Task, es: seq<Entry>, round: Option<Round>, i: nat, d: Decision)
    requires MultiOk(cfg, task, es, round) && !task.golden && task.required >= 2 && Ascending(es)
    requires i < |es| && es[i].decision == None && !Grading.ReviewBlocked(task)
    ensures var after := Decided(es, es[i].id, d);
            MultiOk(cfg, Grading.ReviewedRow(task, d), after, ReviewedRound(after, round, es[i].id, d))
  {
    ReviewMeetsAgreed(cfg, task, es, round, i);
    ReviewRound(cfg, task, es, round.value, i, d);
  }

  lemma ReviewedStatus(es: seq<Entry>, i: nat, d: Decision)
    requires i < |es| && es[i].decision == None && Ascending(es)
    ensures var after := Decided(es, es[i].id, d);
            && (SomeDecision(after, Approve) <==> d == Approve || SomeDecision(es, Approve))
            && (SomeDecision(after, Reject) <==> d == Reject || SomeDecision(es, Reject))
  {
    var after := Decided(es, es[i].id, d);
    assert after[i].decision == Some(d);
    forall k | 0 <= k < |es| && k != i ensures after[k] == es[k] {
      assert k < i || i < k;
    }
    forall x | SomeDecision(es, x) ensures SomeDecision(after, x) {
      var k :| 0 <= k < |es| && es[k].decision == Some(x);
      assert after[k].decision == Some(x);
    }
  }

  /** A review touches no lease and no version. */
  lemma ReviewLease(task: Task, es: seq<Entry>, i: nat, d: Decision)
    requires LeaseOk(task, es) && VersionOk(task, es) && i < |es| && (task.golden || task.status != Assigned)
    requires Ascending(es) && es[i].decision == None
    ensures LeaseOk(Grading.ReviewedRow(task, d), Decided(es, es[i].id, d))
    ensures VersionOk(Grading.ReviewedRow(task, d), Decided(es, es[i].id, d))
  {
    var after := Decided(es, es[i].id, d);
    assert Authors(after) == Authors(es);
    forall j | 0 <= j < |es| ensures after[j].rubric == es[j].rubric && (Unrejected(after[j]) ==> Unrejected(es[j])) {
    }
  }

  lemma ReviewKeeps(cfg: Settings, task: Task, es: seq<Entry>, round: Option<Round>, i: nat, d: Decision)
    requires TaskOk(cfg, task, es, round) && Ascending(es)
    requires i < |es| && es[i].decision == None && !Grading.ReviewBlocked(task)
    ensures var after := Decided(es, es[i].id, d);
            TaskOk(cfg, Grading.ReviewedRow(task, d), after, ReviewedRound(after, round, es[i].id, d))
  {
    hide LeaseOk, VersionOk;
    var after := Decided(es, es[i].id, d);
    assert Authors(after) == Authors(es);
    ReviewLease(task, es, i, d);
    if !task.golden {
      if task.required == 1 {
        ReviewSingle(task, es, i, d);
      } else {
        ReviewMulti(cfg, task, es, round, i, d);
      }
    }
  }

  // ----- an adjudication -------------------------------------------------------------------

  /** The verdicts of an adjudication on every grade of the task. */
  function Verdicts(es: seq<Entry>, delivered: GradeId): (r: seq<Entry>)
    ensures |r| == |es|
  {
    seq(|es|, i requires 0 <= i < |es| =>
      es[i].(decision := Some(if es[i].id == delivered then Approve else Reject)))
  }

  lemma ResolveKeeps(cfg: Settings, task: Task, es: seq<Entry>, round: Round, i: nat)
    requires TaskOk(cfg, task, es, Some(round)) && round.status == Adjudicating && i < |es|
    ensures TaskOk(cfg, task.(status := Approved), Verdicts(es, es[i].id),
                   Some(round.(status := Adjudicated, delivered := Some(es[i].id))))
    ensures NoneReviewed(es)
  {
    var after := Verdicts(es, es[i].id);
    assert Authors(after) == Authors(es);
    SameScores(es, after);
    assert after[i].id == es[i].id && Unrejected(after[i]);
  }
}
