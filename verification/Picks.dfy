/** Which grade a round delivers, in terms of the grade and review tables: the nearest to the mean of the candidates. */
module Picks {
  import opened Wrappers
  import opened Model
  import opened Scores
  import opened Tables
  import opened TaskInvariant
  import opened Invariant
  import Calibration
  import Consensus
  import Grading

  function Product(a: real, b: real): (r: real) {
    a * b
  }

  // ----- the mean ---------------------------------------------------------------------------------------

  /** The deviations of the scores from m, added up. */
  function Deviations(es: seq<Entry>, m: real): (r: real) {
    if es == [] then 0.0 else Deviations(es[..|es| - 1], m) + (es[|es| - 1].score - m)
  }

  lemma {:induction false} DeviationsSum(es: seq<Entry>, m: real)
    ensures Deviations(es, m) == Sum(es) - m * |es| as real
  {
    if es != [] {
      var front, last := es[..|es| - 1], es[|es| - 1];
      DeviationsSum(front, m);
      assert es == front + [last];
      SumAppend(front, last);
      var n := |front| as real;
      assert |es| as real == n + 1.0 && m * (n + 1.0) == m * n + m;
    } else {
      assert m * 0.0 == 0.0;
    }
  }

  lemma {:induction false} SumAppend(es: seq<Entry>, e: Entry)
    ensures Sum(es + [e]) == Sum(es) + e.score
  {
    if es == [] {
      assert [] + [e] == [e] && [e][1..] == [];
    } else {
      SumAppend(es[1..], e);
      assert (es + [e])[1..] == es[1..] + [e];
    }
  }

  /** The deviations from the mean cancel, and from nothing else. */
  lemma MeanBalances(es: seq<Entry>, m: real)
    requires es != []
    ensures Deviations(es, m) == 0.0 <==> m == Mean(es)
  {
    DeviationsSum(es, m);
    var n, total := |es| as real, Sum(es);
    assert Mean(es) * n == total;
    if m != Mean(es) {
      Different(m, Mean(es), n);
    }
  }

  lemma Different(a: real, b: real, n: real)
    requires a != b && n > 0.0
    ensures a * n != b * n
  {
    if a < b {
      Cancelled(a - b, n);
      assert n * (a - b) == a * n - b * n;
    } else {
      Cancelled(b - a, n);
      assert n * (b - a) == b * n - a * n;
    }
  }

  // ----- candidates, by the tables ----------------------------------------------------------------------

  ghost predicate Reviewed(s: State, g: GradeId, d: Decision) {
    exists i | 0 <= i < |s.reviews| :: s.reviews[i].grade == g && s.reviews[i].decision == d
  }

  ghost predicate AnyApproved(s: State, t: TaskId) {
    exists g | 0 <= g < |s.grades| :: s.grades[g].task == t && Reviewed(s, g, Approve)
  }

  /** Grades of the task that no reviewer rejected, and only approved ones once there is one. */
  ghost predicate Candidate(s: State, t: TaskId, g: GradeId) {
    && g < |s.grades| && s.grades[g].task == t && !Reviewed(s, g, Reject)
    && (AnyApproved(s, t) ==> Reviewed(s, g, Approve))
  }

  ghost function CandidateCount(s: State, t: TaskId, n: nat): (r: nat)
    requires n <= |s.grades|
  {
    if n == 0 then 0 else CandidateCount(s, t, n - 1) + if Candidate(s, t, n - 1) then 1 else 0
  }

  ghost function CandidateTotal(s: State, t: TaskId, n: nat): (r: real)
    requires n <= |s.grades|
  {
    if n == 0 then 0.0 else
      CandidateTotal(s, t, n - 1) + if Candidate(s, t, n - 1) then s.grades[n - 1].weighted else 0.0
  }

  /** How far a score is from the mean of the candidates, times their number. */
  ghost function Distance(s: State, t: TaskId, score: real): (r: real) {
    Abs(Product(CandidateCount(s, t, |s.grades|) as real, score) - CandidateTotal(s, t, |s.grades|))
  }

  /** A candidate no further from the mean than any other, the earlier and then the lower of equals. */
  ghost predicate NearestCandidate(s: State, t: TaskId, d: GradeId) {
    && Candidate(s, t, d)
    && forall g | 0 <= g < |s.grades| && Candidate(s, t, g) ::
         var a, b := Distance(s, t, s.grades[d].weighted), Distance(s, t, s.grades[g].weighted);
         a < b || (a == b && (s.grades[d].at < s.grades[g].at || (s.grades[d].at == s.grades[g].at && d <= g)))
  }

  // ----- the lists the code builds ----------------------------------------------------------------------

  lemma {:induction false} DecisionReviewed(reviews: seq<Review>, g: GradeId) returns (i: nat)
    requires DecisionOf(reviews, g).Some?
    ensures i < |reviews| && reviews[i].grade == g && reviews[i].decision == DecisionOf(reviews, g).value
  {
    if reviews[|reviews| - 1].grade == g {
      i := |reviews| - 1;
    } else {
      i := DecisionReviewed(reviews[..|reviews| - 1], g);
    }
  }

  /** With one review a grade the decision is what the review says. */
  lemma DecisionMeans(s: State, clock: int, g: GradeId, d: Decision)
    requires ReviewsOk(s, clock)
    ensures DecisionOf(s.reviews, g) == Some(d) <==> Reviewed(s, g, d)
  {
    if DecisionOf(s.reviews, g).Some? {
      var i := DecisionReviewed(s.reviews, g);
    }
    Undecided(s.reviews, g);
  }

  function Candidates(es: seq<Entry>): (r: seq<Entry>) {
    var pool := UnrejectedOf(es);
    if ApprovedOf(pool) != [] then ApprovedOf(pool) else pool
  }

  /** One of the two filters. */
  function Kept(es: seq<Entry>, approved: bool): (r: seq<Entry>) {
    if approved then ApprovedOf(es) else UnrejectedOf(es)
  }

  lemma {:induction false} KeptMembers(es: seq<Entry>, approved: bool)
    ensures forall e :: e in Kept(es, approved) <==>
              e in es && if approved then e.decision == Some(Approve) else Unrejected(e)
  {
    if es != [] {
      KeptMembers(es[..|es| - 1], approved);
      assert es == es[..|es| - 1] + [es[|es| - 1]];
    }
  }

  lemma KeptAppend(es: seq<Entry>, e: Entry, approved: bool)
    ensures Kept(es + [e], approved)
         == Kept(es, approved) + if (if approved then e.decision == Some(Approve) else Unrejected(e)) then [e] else []
  {
    assert (es + [e])[..|es|] == es;
  }

  lemma {:induction false} ApprovedOfPool(es: seq<Entry>)
    ensures ApprovedOf(UnrejectedOf(es)) == ApprovedOf(es)
  {
    if es != [] {
      var front, last := es[..|es| - 1], es[|es| - 1];
      ApprovedOfPool(front);
      if Unrejected(last) {
        KeptAppend(UnrejectedOf(front), last, true);
      }
    }
  }

  lemma CandidatesKept(es: seq<Entry>)
    ensures Candidates(es) == Kept(es, exists e <- es :: e.decision == Some(Approve))
  {
    ApprovedOfPool(es);
    KeptMembers(es, true);
    assert Kept(es, true) == ApprovedOf(es);
    assert ApprovedOf(es) != [] ==> ApprovedOf(es)[0] in Kept(es, true);
  }

  lemma ApprovedThere(s: State, clock: int, t: TaskId)
    requires ReviewsOk(s, clock)
    ensures AnyApproved(s, t) <==> exists e <- TaskEntries(s, t) :: e.decision == Some(Approve)
  {
    EntryIds(s.grades, s.reviews, t);
    if AnyApproved(s, t) {
      var g :| 0 <= g < |s.grades| && s.grades[g].task == t && Reviewed(s, g, Approve);
      DecisionMeans(s, clock, g, Approve);
      var i := EntryPresent(s.grades, s.reviews, g);
      assert TaskEntries(s, t)[i] in TaskEntries(s, t);
    }
    if e :| e in TaskEntries(s, t) && e.decision == Some(Approve) {
      DecisionMeans(s, clock, e.id, Approve);
    }
  }

  /** A grade of the task is a candidate exactly when its entry is kept. */
  lemma CandidateKept(s: State, clock: int, t: TaskId, g: GradeId)
    requires ReviewsOk(s, clock) && g < |s.grades|
    ensures var e := EntryOf(s.grades[g], s.reviews, g);
            Candidate(s, t, g) <==>
              s.grades[g].task == t && if AnyApproved(s, t) then e.decision == Some(Approve) else Unrejected(e)
  {
    hide AnyApproved, Reviewed;
    DecisionMeans(s, clock, g, Approve);
    DecisionMeans(s, clock, g, Reject);
  }

  lemma {:induction false} KeptCounts(s: State, clock: int, t: TaskId, n: nat)
    requires ReviewsOk(s, clock) && n <= |s.grades|
    ensures var es := Kept(Entries(s.grades[..n], s.reviews, t), AnyApproved(s, t));
            |es| == CandidateCount(s, t, n) && Sum(es) == CandidateTotal(s, t, n)
  {
    hide Candidate, AnyApproved, Sum;
    if n == 0 {
      assert Entries(s.grades[..0], s.reviews, t) == [];
      SumNothing();
    } else {
      KeptCounts(s, clock, t, n - 1);
      var front, x := s.grades[..n - 1], s.grades[n - 1];
      assert s.grades[..n] == front + [x];
      EntriesAppend(front, s.reviews, x, t);
      var e := EntryOf(x, s.reviews, n - 1);
      CandidateKept(s, clock, t, n - 1);
      if x.task == t {
        KeptAppend(Entries(front, s.reviews, t), e, AnyApproved(s, t));
        SumAppend(Kept(Entries(front, s.reviews, t), AnyApproved(s, t)), e);
        assert Kept(Entries(front, s.reviews, t), AnyApproved(s, t)) + []
            == Kept(Entries(front, s.reviews, t), AnyApproved(s, t));
      } else {
        assert Entries(front, s.reviews, t) + [] == Entries(front, s.reviews, t);
      }
    }
  }

  lemma SumNothing()
    ensures Sum([]) == 0.0
  {
  }

  /** The code's candidates are the candidates of the tables, with their number and total. */
  lemma CandidatesMean(s: State, clock: int, t: TaskId)
    requires ReviewsOk(s, clock)
    ensures var es := Candidates(TaskEntries(s, t));
            && |es| == CandidateCount(s, t, |s.grades|) && Sum(es) == CandidateTotal(s, t, |s.grades|)
            && (forall e <- es ::
                  e.id < |s.grades| && Candidate(s, t, e.id) && e == EntryOf(s.grades[e.id], s.reviews, e.id))
            && (forall g | 0 <= g < |s.grades| && Candidate(s, t, g) :: EntryOf(s.grades[g], s.reviews, g) in es)
  {
    hide Candidate, AnyApproved;
    var all := TaskEntries(s, t);
    ApprovedThere(s, clock, t);
    CandidatesKept(all);
    assert s.grades[..|s.grades|] == s.grades;
    KeptCounts(s, clock, t, |s.grades|);
    KeptMembers(all, AnyApproved(s, t));
    EntryIds(s.grades, s.reviews, t);
    var es := Candidates(all);
    forall e <- es
      ensures e.id < |s.grades| && Candidate(s, t, e.id) && e == EntryOf(s.grades[e.id], s.reviews, e.id) {
      CandidateKept(s, clock, t, e.id);
    }
    forall g | 0 <= g < |s.grades| && Candidate(s, t, g) ensures EntryOf(s.grades[g], s.reviews, g) in es {
      CandidateKept(s, clock, t, g);
      var i := EntryPresent(s.grades, s.reviews, g);
      assert all[i] in all;
    }
  }

  lemma ScaledDistance(x: real, mean: real, n: real, total: real)
    requires n > 0.0 && Product(n, mean) == total
    ensures Product(n, Abs(x - mean)) == Abs(Product(n, x) - total)
  {
    assert n * (x - mean) == n * x - n * mean;
    if x < mean {
      Cancelled(x - mean, n);
      assert n * (-(x - mean)) == -(n * (x - mean));
    }
  }

  lemma Cancelled(d: real, n: real)
    requires d < 0.0 < n
    ensures n * d < 0.0
  {
  }

  lemma ScaledOrder(a: real, b: real, n: real)
    requires n > 0.0
    ensures a < b <==> Product(n, a) < Product(n, b)
    ensures a == b <==> Product(n, a) == Product(n, b)
  {
  }

  /** Being before by distance from the mean, multiplied out. */
  lemma BeforeScaled(a: Entry, b: Entry, mean: real, n: real, total: real)
    requires n > 0.0 && Product(n, mean) == total && Before(a, b, mean)
    ensures var x, y := Abs(Product(n, a.score) - total), Abs(Product(n, b.score) - total);
            x < y || (x == y && (a.at < b.at || (a.at == b.at && a.id <= b.id)))
  {
    hide Abs, Product;
    ScaledDistance(a.score, mean, n, total);
    ScaledDistance(b.score, mean, n, total);
    ScaledOrder(Abs(a.score - mean), Abs(b.score - mean), n);
  }

  lemma MeanTimes(es: seq<Entry>)
    requires es != []
    ensures Product(|es| as real, Mean(es)) == Sum(es)
  {
  }

  /** The closest grade of the code is the nearest candidate of the tables. */
  lemma ClosestIsNearest(s: State, clock: int, t: TaskId)
    requires ReviewsOk(s, clock) && Candidates(TaskEntries(s, t)) != []
    ensures NearestCandidate(s, t, ClosestToMean(Candidates(TaskEntries(s, t))).id)
  {
    hide Candidate, Candidates, Sum, Abs, CandidateCount, CandidateTotal, Before, ReviewsOk, TaskEntries, Product,
      Mean;
    CandidatesMean(s, clock, t);
    var es := Candidates(TaskEntries(s, t));
    var d := ClosestToMean(es);
    MeanTimes(es);
    forall g | 0 <= g < |s.grades| && Candidate(s, t, g)
      ensures var a, b := Distance(s, t, s.grades[d.id].weighted), Distance(s, t, s.grades[g].weighted);
              || a < b
              || (a == b && (s.grades[d.id].at < s.grades[g].at || (s.grades[d.id].at == s.grades[g].at && d.id <= g)))
    {
      var e := EntryOf(s.grades[g], s.reviews, g);
      BeforeScaled(d, e, Mean(es), |es| as real, Sum(es));
    }
  }

  // ----- the requests -----------------------------------------------------------------------------------

  lemma {:induction false} NoneApproved(es: seq<Entry>)
    requires NoneReviewed(es)
    ensures UnrejectedOf(es) == es && ApprovedOf(es) == []
  {
    if es != [] {
      NoneApproved(es[..|es| - 1]);
    }
  }

  /** No two candidates' scores are further apart than that. */
  ghost predicate Within(s: State, t: TaskId, delta: real) {
    forall g, h | 0 <= g < |s.grades| && 0 <= h < |s.grades| && Candidate(s, t, g) && Candidate(s, t, h) ::
      s.grades[g].weighted - s.grades[h].weighted <= delta
  }

  lemma SpreadMeans(s: State, clock: int, t: TaskId, delta: real)
    requires ReviewsOk(s, clock) && Candidates(TaskEntries(s, t)) != []
    ensures Spread(Candidates(TaskEntries(s, t))) <= delta <==> Within(s, t, delta)
  {
    hide Candidate, Candidates;
    CandidatesMean(s, clock, t);
    var es := Candidates(TaskEntries(s, t));
    SpreadIsLeast(es, delta);
    if Spread(es) <= delta {
      forall g, h | 0 <= g < |s.grades| && 0 <= h < |s.grades| && Candidate(s, t, g) && Candidate(s, t, h)
        ensures s.grades[g].weighted - s.grades[h].weighted <= delta
      {
        var a, b := EntryOf(s.grades[g], s.reviews, g), EntryOf(s.grades[h], s.reviews, h);
        assert a in es && b in es;
      }
    }
    if Within(s, t, delta) {
      forall a, b | a in es && b in es ensures Abs(a.score - b.score) <= delta {
        assert Candidate(s, t, a.id) && Candidate(s, t, b.id);
        assert s.grades[a.id].weighted - s.grades[b.id].weighted <= delta;
        assert s.grades[b.id].weighted - s.grades[a.id].weighted <= delta;
      }
    }
  }

  /**
   * The round counts the candidates, is agreed exactly if they are within the tolerance of each other, and then
   * delivers the nearest to their mean; its spread is the least distance they are all within.
   */
  ghost predicate Picked(cfg: Settings, s: State, t: TaskId, round: Round) {
    && round.count == CandidateCount(s, t, |s.grades|) && round.tolerance == cfg.consensusTolerance
    && (forall delta :: round.spread <= delta <==> Within(s, t, delta))
    && (round.status == Agreed <==> Within(s, t, cfg.consensusTolerance))
    && (round.status == Agreed ==> round.delivered.Some? && NearestCandidate(s, t, round.delivered.value))
    && (round.status != Agreed ==> round.status == Adjudicating && round.delivered == None)
  }

  lemma NewRoundPicks(cfg: Settings, s: State, clock: int, t: TaskId)
    requires ReviewsOk(s, clock) && NoneReviewed(TaskEntries(s, t)) && TaskEntries(s, t) != []
    ensures Picked(cfg, s, t, Consensus.NewRound(cfg, TaskEntries(s, t)))
  {
    hide Within, NearestCandidate, TaskEntries, ReviewsOk, Spread, ClosestToMean, CandidateCount, CandidateTotal, Sum;
    var es := TaskEntries(s, t);
    NoneApproved(es);
    assert Candidates(es) == es;
    CandidatesMean(s, clock, t);
    forall delta ensures Spread(es) <= delta <==> Within(s, t, delta) {
      SpreadMeans(s, clock, t, delta);
    }
    ClosestIsNearest(s, clock, t);
  }

  /** The round an accepted submission opens is such a round over the grades of the task, its own included. */
  lemma SubmissionPicks(cfg: Settings, s: State, s': State, clock: int, now: int, e: ExpertId, t: TaskId,
                        scores: ScoreSheet, given: Option<RubricId>)
    requires Inv(cfg, s, clock) && clock < now && e < |s.experts|
    requires Grading.Submit(cfg, s, now, e, t, scores, given) == Ok(s') && t !in s.rounds && t in s'.rounds
    ensures Picked(cfg, s', t, s'.rounds[t])
  {
    hide Grading.Submit, Picked, Grading.ValidScores, LeaseOk, VersionOk;
    SubmitRows(cfg, s, s', now, e, t, scores, given);
    SubmitInv(cfg, s, s', clock, now, e, t, scores);
    OpensUnreviewed(cfg, s, s', now, e, t, scores);
    NewRoundPicks(cfg, s', now, t);
  }

  /** A round is opened over all grades of the task, none of which has been reviewed. */
  lemma OpensUnreviewed(cfg: Settings, s: State, s': State, now: int, e: ExpertId, t: TaskId, scores: ScoreSheet)
    requires SubmitShape(cfg, s, s', now, e, t, scores) && t !in s.rounds && t in s'.rounds
    requires ReviewsLinked(s.grades, s.reviews)
    requires TaskOk(cfg, s.tasks[t], TaskEntries(s, t), RoundOf(s.rounds, t))
    requires Grading.ValidScores(s.rubrics[Grading.ScoredRubric(s.tasks[t])].criteria, scores)
    ensures var es := TaskEntries(s', t);
            es != [] && NoneReviewed(es) && s'.rounds[t] == Consensus.NewRound(cfg, es)
  {
    hide LeaseOk, VersionOk, Grading.ValidScores, Consensus.NewRound, RoundOk;
    RecordedEntries(s, now, e, t, scores, t);
    var task, es, all := s.tasks[t], TaskEntries(s, t), TaskEntries(s', t);
    var x := all[|all| - 1];
    assert all == es + [x] && RoundOf(s.rounds, t) == None && RoundOf(s'.rounds, t) == Some(s'.rounds[t]);
    if task.golden {
      assert false;
    } else if task.required == 1 {
      SubmitSingle(cfg, task, es, None, x);
      assert false;
    } else {
      NoneApproved(all);
    }
  }

  /**
   * A rejection of the delivered grade of an agreed round picks the nearest of the remaining candidates, or nothing if
   * there is none; any other review leaves the pick alone.
   */
  lemma RedeliveryPicks(cfg: Settings, s: State, s': State, clock: int, now: int, g: GradeId, d: Decision)
    requires Inv(cfg, s, clock) && clock < now && Grading.ReviewGrade(cfg, s, now, g, d) == Ok(s')
    requires g < |s.grades| && s.grades[g].task in s.rounds
    ensures var t := s.grades[g].task;
            && t in s'.rounds
            && if d == Reject && s.rounds[t].status == Agreed && s.rounds[t].delivered == Some(g)
               then
                 && (s'.rounds[t].delivered == None <==> forall h | 0 <= h < |s'.grades| :: !Candidate(s', t, h))
                 && (s'.rounds[t].delivered.Some? ==> NearestCandidate(s', t, s'.rounds[t].delivered.value))
               else s'.rounds[t].delivered == s.rounds[t].delivered
  {
    hide Calibration.Update, Candidate, NearestCandidate, TasksOk, Grading.ReviewedRow;
    ReviewRows(cfg, s, s', now, g, d);
    ReviewInv(cfg, s, s', clock, now, g, d);
    var t := s.grades[g].task;
    if d == Reject && s.rounds[t].status == Agreed && s.rounds[t].delivered == Some(g) {
      RedeliveredCandidates(TaskEntries(s', t));
      CandidatesMean(s', now, t);
      if Candidates(TaskEntries(s', t)) != [] {
        ClosestIsNearest(s', now, t);
        assert Candidates(TaskEntries(s', t))[0] in Candidates(TaskEntries(s', t));
      }
    }
  }

  lemma RedeliveredCandidates(es: seq<Entry>)
    ensures Consensus.Redelivered(es)
         == if Candidates(es) == [] then None else Some(ClosestToMean(Candidates(es)).id)
  {
  }
}
