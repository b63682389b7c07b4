/** When a submission pauses its expert, in terms of the checks on record, and what that does to the payouts. */
module Pauses {
  import opened Wrappers
  import opened Model
  import opened Tables
  import opened Windows
  import opened Ledger
  import opened Agreement
  import Attention
  import Grading
  import Payouts

  // ----- the check ----------------------------------------------------------------------------------------

  function Given(scores: ScoreSheet, key: Key): (x: real) {
    if key in scores then scores[key] else 0.0
  }

  /** How far the i-th expected score is from the one given, a missing one counting as zero. */
  function Gap(expected: seq<(Key, real)>, scores: ScoreSheet, i: nat): (x: real)
    requires i < |expected|
  {
    var d := Given(scores, expected[i].0) - expected[i].1;
    if d < 0.0 then -d else d
  }

  /** The deviation on record is the largest gap. */
  lemma {:induction false} LargestGap(expected: seq<(Key, real)>, scores: ScoreSheet)
    requires expected != []
    ensures forall i | 0 <= i < |expected| :: Gap(expected, scores, i) <= Attention.MaxDeviation(expected, scores)
    ensures exists i | 0 <= i < |expected| :: Gap(expected, scores, i) == Attention.MaxDeviation(expected, scores)
  {
    var rest := expected[1..];
    forall i | 0 < i < |expected| ensures Gap(expected, scores, i) == Gap(rest, scores, i - 1) {
    }
    if rest != [] {
      LargestGap(rest, scores);
      var j :| 0 <= j < |rest| && Gap(rest, scores, j) == Attention.MaxDeviation(rest, scores);
      assert Gap(expected, scores, j + 1) == Gap(rest, scores, j);
    }
    assert Gap(expected, scores, 0) == Attention.Deviation(scores, expected[0].0, expected[0].1);
  }

  /** A submission leaves a check exactly on a golden task with expected scores, passed if every gap is tolerated. */
  lemma CheckMeans(cfg: Settings, s: State, s': State, now: int, e: ExpertId, t: TaskId, scores: ScoreSheet,
                   given: Option<RubricId>)
    requires Linked(s) && e < |s.experts| && Grading.Submit(cfg, s, now, e, t, scores, given) == Ok(s')
    ensures t < |s.tasks|
    ensures !s.tasks[t].golden || s.tasks[t].expected == [] ==> s'.checks == s.checks
    ensures s.tasks[t].golden && s.tasks[t].expected != [] ==>
              && |s'.checks| == |s.checks| + 1 && s'.checks[..|s.checks|] == s.checks
              && var expected, check := s.tasks[t].expected, s'.checks[|s.checks|];
                 && check.task == t && check.expert == e && check.grade == |s.grades| && check.at == now
                 && (check.passed <==>
                     forall i | 0 <= i < |expected| :: Gap(expected, scores, i) <= cfg.attentionTolerance)
                 && (forall i | 0 <= i < |expected| :: Gap(expected, scores, i) <= check.deviation)
                 && (exists i | 0 <= i < |expected| :: Gap(expected, scores, i) == check.deviation)
  {
    hide Grading.Submit, Grading.ValidScores, Gap, Attention.MaxDeviation, Payouts.Restate, Fires;
    SubmitGuarded(cfg, s, s', now, e, t, scores, given);
    if s.tasks[t].golden && s.tasks[t].expected != [] {
      LargestGap(s.tasks[t].expected, scores);
    }
  }

  // ----- the guard ----------------------------------------------------------------------------------------

  ghost function ChecksFrom(checks: seq<Check>, e: ExpertId, since: int): (n: nat) {
    Outcomes(checks, e, since, true) + Outcomes(checks, e, since, false)
  }

  /** The guard's window reaches back to that time: full with the checks since then, or holding all there are. */
  ghost predicate GuardWindow(cfg: Settings, checks: seq<Check>, e: ExpertId, since: int) {
    var n := ChecksFrom(checks, e, since);
    || n == cfg.attentionWindow
    || (n < cfg.attentionWindow && forall i | 0 <= i < |checks| && checks[i].expert == e :: checks[i].at >= since)
  }

  ghost predicate InOrder(checks: seq<Check>) {
    forall i, j :: 0 <= i < j < |checks| ==> checks[i].at <= checks[j].at
  }

  /** There are enough checks in the window, and fewer passes than the threshold asks of as many. */
  ghost predicate TooFewPasses(cfg: Settings, checks: seq<Check>, e: ExpertId, since: int) {
    var n := ChecksFrom(checks, e, since);
    && 0 < n && cfg.attentionMinChecks <= n
    && Outcomes(checks, e, since, true) as real < cfg.attentionThreshold * n as real
  }

  lemma {:induction false} CheckSignalsOrdered(checks: seq<Check>, e: ExpertId)
    requires InOrder(checks)
    ensures NewestFirst(CheckSignals(checks, e))
    ensures checks != [] ==> forall x <- CheckSignals(checks, e) :: x.at <= checks[|checks| - 1].at
  {
    if checks != [] {
      CheckSignalsOrdered(checks[..|checks| - 1], e);
    }
  }

  lemma TripsMeans(cfg: Settings, checks: seq<Check>, e: ExpertId, since: int)
    requires InOrder(checks) && GuardWindow(cfg, checks, e, since)
    ensures Attention.Trips(cfg, checks, e) <==> TooFewPasses(cfg, checks, e, since)
  {
    hide Agreement.Since, Outcomes, Agreeing, Share;
    var xs, n := CheckSignals(checks, e), ChecksFrom(checks, e, since);
    CheckSignalsOrdered(checks, e);
    SincePrefix(xs, since);
    ChecksSince(checks, e, since, true);
    ChecksSince(checks, e, since, false);
    if n < cfg.attentionWindow {
      CheckSignalsSince(checks, e, since);
      AllSince(xs, since);
    }
    var recent := Limit(Attention.CheckFlags(checks, e), cfg.attentionWindow);
    assert recent == Flags(xs[..n]);
    if recent != [] {
      RateBounds(recent, cfg.attentionThreshold);
      ShareIsProduct(cfg.attentionThreshold, n);
    }
  }

  /**
   * A submission pauses its expert exactly when it failed its check and left too few passes in the window; then all
   * that was pending for them is withheld. No other expert is touched, and no other payout.
   */
  lemma GuardMeans(cfg: Settings, s: State, s': State, now: int, e: ExpertId, t: TaskId, scores: ScoreSheet,
                   given: Option<RubricId>, since: int)
    requires Linked(s) && e < |s.experts| && Grading.Submit(cfg, s, now, e, t, scores, given) == Ok(s')
    requires InOrder(s'.checks) && GuardWindow(cfg, s'.checks, e, since)
    ensures |s'.experts| == |s.experts| && |s'.payouts| == |s.payouts|
    ensures forall x | 0 <= x < |s.experts| && x != e :: s'.experts[x] == s.experts[x]
    ensures var failed := |s'.checks| > |s.checks| && !s'.checks[|s.checks|].passed;
            if failed && TooFewPasses(cfg, s'.checks, e, since) && s.experts[e].status != Paused then
              && s'.experts[e].status == Paused
              && forall i | 0 <= i < |s.payouts| ::
                   s'.payouts[i] == if s.payouts[i].expert == e && s.payouts[i].status == Pending
                                    then s.payouts[i].(status := Withheld) else s.payouts[i]
            else s'.experts[e].status == s.experts[e].status && s'.payouts == s.payouts
  {
    hide Grading.Submit, Grading.ValidScores, Attention.Trips, TooFewPasses, GuardWindow;
    SubmitGuarded(cfg, s, s', now, e, t, scores, given);
    TripsMeans(cfg, s'.checks, e, since);
  }
}
