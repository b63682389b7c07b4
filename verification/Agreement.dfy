/** What moves an expert between tiers, in terms of the review and check tables: how many signals agreed lately. */
module Agreement {
  import opened Wrappers
  import opened Model
  import opened Tables
  import opened Windows
  import opened Tiers
  import opened Calibration

  // ----- signals are reviews and checks -----------------------------------------------------------------------

  /** The review is of a grade by the expert. */
  predicate Concerns(grades: seq<Grade>, r: Review, e: ExpertId) {
    r.grade < |grades| && grades[r.grade].expert == e
  }

  /** A review of the expert's grades at that time, an approval or not. */
  predicate ReviewAt(grades: seq<Grade>, r: Review, e: ExpertId, at: int, approved: bool) {
    Concerns(grades, r, e) && r.at == at && (r.decision == Approve <==> approved)
  }

  predicate CheckAt(c: Check, e: ExpertId, at: int, passed: bool) {
    c.expert == e && c.at == at && (c.passed <==> passed)
  }

  ghost function ReviewsAt(grades: seq<Grade>, reviews: seq<Review>, e: ExpertId, at: int, approved: bool)
    : (r: set<nat>)
  {
    set i | 0 <= i < |reviews| && ReviewAt(grades, reviews[i], e, at, approved)
  }

  ghost function ChecksAt(checks: seq<Check>, e: ExpertId, at: int, passed: bool): (r: set<nat>) {
    set i | 0 <= i < |checks| && CheckAt(checks[i], e, at, passed)
  }

  lemma ReviewsAtAppend(grades: seq<Grade>, reviews: seq<Review>, r: Review, e: ExpertId, at: int, approved: bool)
    ensures |ReviewsAt(grades, reviews + [r], e, at, approved)|
         == |ReviewsAt(grades, reviews, e, at, approved)| + if ReviewAt(grades, r, e, at, approved) then 1 else 0
  {
    hide ReviewAt;
    var was, now := ReviewsAt(grades, reviews, e, at, approved), ReviewsAt(grades, reviews + [r], e, at, approved);
    assert now == was + if ReviewAt(grades, r, e, at, approved) then {|reviews|} else {};
  }

  lemma ChecksAtAppend(checks: seq<Check>, c: Check, e: ExpertId, at: int, passed: bool)
    ensures |ChecksAt(checks + [c], e, at, passed)|
         == |ChecksAt(checks, e, at, passed)| + if CheckAt(c, e, at, passed) then 1 else 0
  {
    hide CheckAt;
    var was, now := ChecksAt(checks, e, at, passed), ChecksAt(checks + [c], e, at, passed);
    assert now == was + if CheckAt(c, e, at, passed) then {|checks|} else {};
  }

  /** An expert's review signals are the reviews of their grades, agreeing exactly when they approve. */
  lemma {:induction false} ReviewSignalsAre(grades: seq<Grade>, reviews: seq<Review>, e: ExpertId, at: int,
                                            agreed: bool)
    ensures multiset(ReviewSignals(grades, reviews, e))[Signal(at, agreed)]
         == |ReviewsAt(grades, reviews, e, at, agreed)|
  {
    if reviews == [] {
      assert ReviewsAt(grades, reviews, e, at, agreed) == {};
    } else {
      hide ReviewsAt;
      var front, last := reviews[..|reviews| - 1], reviews[|reviews| - 1];
      ReviewSignalsAre(grades, front, e, at, agreed);
      assert reviews == front + [last];
      ReviewsAtAppend(grades, front, last, e, at, agreed);
    }
  }

  /** An expert's check signals are their checks, agreeing exactly when passed. */
  lemma {:induction false} CheckSignalsAre(checks: seq<Check>, e: ExpertId, at: int, agreed: bool)
    ensures multiset(CheckSignals(checks, e))[Signal(at, agreed)] == |ChecksAt(checks, e, at, agreed)|
  {
    if checks == [] {
      assert ChecksAt(checks, e, at, agreed) == {};
    } else {
      hide ChecksAt;
      var front, last := checks[..|checks| - 1], checks[|checks| - 1];
      CheckSignalsAre(front, e, at, agreed);
      assert checks == front + [last];
      ChecksAtAppend(front, last, e, at, agreed);
    }
  }

  // ----- counting since a time --------------------------------------------------------------------------------

  /** Reviews of the expert's grades since then with that decision. */
  function Verdicts(grades: seq<Grade>, reviews: seq<Review>, e: ExpertId, since: int, d: Decision): (n: nat) {
    if reviews == [] then 0 else
      var r := reviews[0];
      Verdicts(grades, reviews[1..], e, since, d)
      + if Concerns(grades, r, e) && r.at >= since && r.decision == d then 1 else 0
  }

  /** The expert's checks since then with that outcome. */
  function Outcomes(checks: seq<Check>, e: ExpertId, since: int, passed: bool): (n: nat) {
    if checks == [] then 0 else
      var c := checks[0];
      Outcomes(checks[1..], e, since, passed) + if c.expert == e && c.at >= since && c.passed == passed then 1 else 0
  }

  /** Approvals and passed checks, rejections and failed checks. */
  function Agreed(s: State, e: ExpertId, since: int): (n: nat) {
    Verdicts(s.grades, s.reviews, e, since, Approve) + Outcomes(s.checks, e, since, true)
  }

  function Disagreed(s: State, e: ExpertId, since: int): (n: nat) {
    Verdicts(s.grades, s.reviews, e, since, Reject) + Outcomes(s.checks, e, since, false)
  }

  function Since(xs: seq<Signal>, since: int, agreed: bool): (n: nat) {
    if xs == [] then 0 else
      Since(xs[1..], since, agreed) + if xs[0].at >= since && xs[0].agreed == agreed then 1 else 0
  }

  lemma {:induction false} VerdictsAppend(grades: seq<Grade>, reviews: seq<Review>, r: Review, e: ExpertId, since: int,
                                          d: Decision)
    ensures Verdicts(grades, reviews + [r], e, since, d)
         == Verdicts(grades, reviews, e, since, d)
            + if Concerns(grades, r, e) && r.at >= since && r.decision == d then 1 else 0
  {
    if reviews == [] {
      assert [] + [r] == [r] && [r][1..] == [];
    } else {
      VerdictsAppend(grades, reviews[1..], r, e, since, d);
      assert (reviews + [r])[1..] == reviews[1..] + [r];
    }
  }

  lemma {:induction false} OutcomesAppend(checks: seq<Check>, c: Check, e: ExpertId, since: int, passed: bool)
    ensures Outcomes(checks + [c], e, since, passed)
         == Outcomes(checks, e, since, passed)
            + if c.expert == e && c.at >= since && c.passed == passed then 1 else 0
  {
    if checks == [] {
      assert [] + [c] == [c] && [c][1..] == [];
    } else {
      OutcomesAppend(checks[1..], c, e, since, passed);
      assert (checks + [c])[1..] == checks[1..] + [c];
    }
  }

  lemma {:induction false} ReviewsSince(grades: seq<Grade>, reviews: seq<Review>, e: ExpertId, since: int)
    ensures Since(ReviewSignals(grades, reviews, e), since, true) == Verdicts(grades, reviews, e, since, Approve)
    ensures Since(ReviewSignals(grades, reviews, e), since, false) == Verdicts(grades, reviews, e, since, Reject)
  {
    if reviews != [] {
      var front, last := reviews[..|reviews| - 1], reviews[|reviews| - 1];
      ReviewsSince(grades, front, e, since);
      assert reviews == front + [last];
      VerdictsAppend(grades, front, last, e, since, Approve);
      VerdictsAppend(grades, front, last, e, since, Reject);
    }
  }

  lemma {:induction false} ChecksSince(checks: seq<Check>, e: ExpertId, since: int, agreed: bool)
    ensures Since(CheckSignals(checks, e), since, agreed) == Outcomes(checks, e, since, agreed)
  {
    if checks != [] {
      var front, last := checks[..|checks| - 1], checks[|checks| - 1];
      ChecksSince(front, e, since, agreed);
      assert checks == front + [last];
      OutcomesAppend(front, last, e, since, agreed);
    }
  }

  lemma {:induction false} MergeSince(a: seq<Signal>, b: seq<Signal>, since: int, agreed: bool)
    ensures Since(Merge(a, b), since, agreed) == Since(a, since, agreed) + Since(b, since, agreed)
    decreases |a| + |b|
  {
    if a != [] && b != [] {
      if a[0].at >= b[0].at {
        MergeSince(a[1..], b, since, agreed);
      } else {
        MergeSince(a, b[1..], since, agreed);
      }
    }
  }

  lemma HistorySince(s: State, e: ExpertId, since: int)
    ensures Since(History(s, e), since, true) == Agreed(s, e, since)
    ensures Since(History(s, e), since, false) == Disagreed(s, e, since)
  {
    hide Merge, Since, ReviewSignals, CheckSignals, Verdicts, Outcomes;
    var a, b := ReviewSignals(s.grades, s.reviews, e), CheckSignals(s.checks, e);
    MergeSince(a, b, since, true);
    MergeSince(a, b, since, false);
    ReviewsSince(s.grades, s.reviews, e, since);
    ChecksSince(s.checks, e, since, true);
    ChecksSince(s.checks, e, since, false);
  }

  /** The signals since a time are the first ones of a newest-first history. */
  lemma {:induction false} SincePrefix(xs: seq<Signal>, since: int)
    requires NewestFirst(xs)
    ensures var k := Since(xs, since, true) + Since(xs, since, false);
            && k <= |xs| && Agreeing(Flags(xs[..k])) == Since(xs, since, true)
            && (forall i | 0 <= i < |xs| :: xs[i].at >= since <==> i < k)
  {
    if xs != [] {
      SincePrefix(xs[1..], since);
      var k := Since(xs, since, true) + Since(xs, since, false);
      if xs[0].at >= since {
        assert Flags(xs[..k])[1..] == Flags(xs[1..][..k - 1]);
        forall i | 0 <= i < |xs| ensures xs[i].at >= since <==> i < k {
          assert i > 0 ==> xs[i] == xs[1..][i - 1];
        }
      } else {
        NoneSince(xs, since);
      }
    }
  }

  lemma {:induction false} NoneSince(xs: seq<Signal>, since: int)
    requires forall i | 0 <= i < |xs| :: xs[i].at < since
    ensures Since(xs, since, true) == 0 && Since(xs, since, false) == 0
  {
    if xs != [] {
      NoneSince(xs[1..], since);
    }
  }

  // ----- the window -------------------------------------------------------------------------------------------

  /** The window reaches back to that time: it is full with the signals since then, or holds all there are. */
  ghost predicate WindowSince(cfg: Settings, s: State, e: ExpertId, since: int) {
    var n := Agreed(s, e, since) + Disagreed(s, e, since);
    n == cfg.calibrationWindow || (n < cfg.calibrationWindow && NoneBefore(s, e, since))
  }

  ghost predicate NoneBefore(s: State, e: ExpertId, since: int) {
    && (forall i | 0 <= i < |s.reviews| && Concerns(s.grades, s.reviews[i], e) :: s.reviews[i].at >= since)
    && (forall i | 0 <= i < |s.checks| && s.checks[i].expert == e :: s.checks[i].at >= since)
  }

  lemma {:induction false} ReviewSignalsSince(grades: seq<Grade>, reviews: seq<Review>, e: ExpertId, since: int)
    requires forall i | 0 <= i < |reviews| && Concerns(grades, reviews[i], e) :: reviews[i].at >= since
    ensures forall i | 0 <= i < |ReviewSignals(grades, reviews, e)| :: ReviewSignals(grades, reviews, e)[i].at >= since
  {
    if reviews != [] {
      ReviewSignalsSince(grades, reviews[..|reviews| - 1], e, since);
    }
  }

  lemma {:induction false} CheckSignalsSince(checks: seq<Check>, e: ExpertId, since: int)
    requires forall i | 0 <= i < |checks| && checks[i].expert == e :: checks[i].at >= since
    ensures forall i | 0 <= i < |CheckSignals(checks, e)| :: CheckSignals(checks, e)[i].at >= since
  {
    if checks != [] {
      CheckSignalsSince(checks[..|checks| - 1], e, since);
    }
  }

  lemma {:induction false} AllSince(xs: seq<Signal>, since: int)
    requires forall i | 0 <= i < |xs| :: xs[i].at >= since
    ensures Since(xs, since, true) + Since(xs, since, false) == |xs|
  {
    if xs != [] {
      AllSince(xs[1..], since);
    }
  }

  lemma HistoryAllSince(s: State, e: ExpertId, since: int)
    requires TimesOrdered(s) && NoneBefore(s, e, since)
    ensures |History(s, e)| == Agreed(s, e, since) + Disagreed(s, e, since)
  {
    hide Merge, Since, Agreed, Disagreed;
    var a, b := ReviewSignals(s.grades, s.reviews, e), CheckSignals(s.checks, e);
    ReviewSignalsSince(s.grades, s.reviews, e, since);
    CheckSignalsSince(s.checks, e, since);
    MergeSorts2(s, e);
    var h := History(s, e);
    forall i | 0 <= i < |h| ensures h[i].at >= since {
      assert h[i] in multiset(h);
      assert h[i] in multiset(a) || h[i] in multiset(b);
    }
    AllSince(h, since);
    HistorySince(s, e, since);
  }

  lemma MergeSorts2(s: State, e: ExpertId)
    requires TimesOrdered(s)
    ensures multiset(History(s, e))
         == multiset(ReviewSignals(s.grades, s.reviews, e)) + multiset(CheckSignals(s.checks, e))
  {
    HistoryOrdered(s, e);
  }

  /** The flags the score is computed from: as many as there are signals since then, of which those agreed. */
  lemma WindowCounts(cfg: Settings, s: State, e: ExpertId, since: int)
    requires TimesOrdered(s) && WindowSince(cfg, s, e, since)
    ensures var flags := SignalFlags(s, e, cfg.calibrationWindow);
            |flags| == Agreed(s, e, since) + Disagreed(s, e, since) && Agreeing(flags) == Agreed(s, e, since)
  {
    hide Merge, Since, Agreed, Disagreed, NoneBefore, TimesOrdered, Agreeing;
    var h, n := History(s, e), Agreed(s, e, since) + Disagreed(s, e, since);
    WindowOfHistory(s, e, cfg.calibrationWindow);
    HistoryOrdered(s, e);
    SincePrefix(h, since);
    HistorySince(s, e, since);
    if n < cfg.calibrationWindow {
      HistoryAllSince(s, e, since);
    }
    assert Limit(Flags(h), cfg.calibrationWindow) == Flags(h[..n]);
  }

  // ----- the tiers --------------------------------------------------------------------------------------------

  function Up(t: Tier): (r: Tier) {
    match t
    case Junior => Senior
    case Senior => Lead
    case Lead => Lead
  }

  function DownTier(t: Tier): (r: Tier) {
    match t
    case Junior => Junior
    case Senior => Junior
    case Lead => Senior
  }

  lemma StepsAre(t: Tier)
    ensures StepTier(t, 1) == Up(t) && StepTier(t, -1) == DownTier(t)
  {
  }

  /**
   * Of the signals since then so many agreed: with enough of them, a share of at least promoteAt is one tier up from
   * before, one of at most demoteAt one down, and anything else the same; share and number are stored.
   */
  ghost predicate Rescored(cfg: Settings, was: Tier, x: Expert, s: State, e: ExpertId, since: int) {
    var a, n := Agreed(s, e, since), Agreed(s, e, since) + Disagreed(s, e, since);
    && x.tier == (if n == 0 || n < cfg.calibrationMinSamples then was
                  else if a as real >= cfg.promoteAt * n as real then Up(was)
                  else if a as real <= cfg.demoteAt * n as real then DownTier(was)
                  else was)
    && x.samples == n && x.calibration == (if n == 0 then None else Some(a as real / n as real))
  }

  lemma RecalibratedCounts(cfg: Settings, x: Expert, s: State, e: ExpertId, since: int)
    requires TimesOrdered(s) && WindowSince(cfg, s, e, since)
    ensures Rescored(cfg, x.tier, Recalibrated(cfg, x, SignalFlags(s, e, cfg.calibrationWindow)), s, e, since)
  {
    hide Agreed, Disagreed, WindowSince, TimesOrdered, SignalFlags, Agreeing, Share, StepTier;
    WindowCounts(cfg, s, e, since);
    var flags := SignalFlags(s, e, cfg.calibrationWindow);
    StepsAre(x.tier);
    if flags != [] {
      RateBounds(flags, cfg.promoteAt);
      RateBounds(flags, cfg.demoteAt);
      ShareIsProduct(cfg.promoteAt, |flags|);
      ShareIsProduct(cfg.demoteAt, |flags|);
    }
  }

  /** An update scores the expert by the signals of the window, records exactly the move, and touches nobody else. */
  lemma UpdateCounts(cfg: Settings, s: State, e: ExpertId, since: int)
    requires e < |s.experts| && TimesOrdered(s) && WindowSince(cfg, s, e, since)
    ensures var s', a, n := Update(cfg, s, e), Agreed(s, e, since), Agreed(s, e, since) + Disagreed(s, e, since);
            var was, now := s.experts[e].tier, s'.experts[e].tier;
            && Rescored(cfg, was, s'.experts[e], s, e, since)
            && s'.moves == s.moves + (if now == was then [] else [Move(e, was, now, a as real / n as real, n)])
            && (forall x | 0 <= x < |s.experts| && x != e :: s'.experts[x] == s.experts[x])
  {
    hide Agreed, Disagreed, WindowSince, TimesOrdered, SignalFlags, Agreeing, StepTier;
    WindowCounts(cfg, s, e, since);
    RecalibratedCounts(cfg, s.experts[e], s, e, since);
  }

  /** Nothing but approvals and passed checks lifts a junior and a senior one tier and leaves a lead. */
  lemma AllAgreed(cfg: Settings, s: State, e: ExpertId, since: int)
    requires e < |s.experts| && TimesOrdered(s) && WindowSince(cfg, s, e, since) && Disagreed(s, e, since) == 0
    requires 0 < Agreed(s, e, since) && cfg.calibrationMinSamples <= Agreed(s, e, since) && cfg.promoteAt <= 1.0
    ensures Update(cfg, s, e).experts[e].tier == Up(s.experts[e].tier)
  {
    hide Agreed, Disagreed, WindowSince, TimesOrdered, Update;
    UpdateCounts(cfg, s, e, since);
    AtMost(cfg.promoteAt, Agreed(s, e, since));
  }

  lemma AtMost(share: real, n: nat)
    ensures share <= 1.0 ==> share * n as real <= n as real
    ensures share > 0.0 && n > 0 ==> share * n as real > 0.0
    ensures share >= 0.0 ==> share * n as real >= 0.0
  {
  }

  /** Nothing but rejections and failed checks takes a lead and a senior one tier down and leaves a junior. */
  lemma AllDisagreed(cfg: Settings, s: State, e: ExpertId, since: int)
    requires e < |s.experts| && TimesOrdered(s) && WindowSince(cfg, s, e, since) && Agreed(s, e, since) == 0
    requires 0 < Disagreed(s, e, since) && cfg.calibrationMinSamples <= Disagreed(s, e, since)
    requires 0.0 <= cfg.demoteAt < cfg.promoteAt
    ensures Update(cfg, s, e).experts[e].tier == DownTier(s.experts[e].tier)
  {
    hide Agreed, Disagreed, WindowSince, TimesOrdered, Update;
    UpdateCounts(cfg, s, e, since);
    AtMost(cfg.promoteAt, Disagreed(s, e, since));
    AtMost(cfg.demoteAt, Disagreed(s, e, since));
  }

  /** Where no two signals of an expert have one time, the window reaches back to some time. */
  lemma CutoffExists(cfg: Settings, s: State, e: ExpertId) returns (since: int)
    requires TimesOrdered(s)
    requires forall i, j :: 0 <= i < j < |History(s, e)| ==> History(s, e)[i].at > History(s, e)[j].at
    ensures WindowSince(cfg, s, e, since)
  {
    hide Merge, Since, Agreed, Disagreed, TimesOrdered;
    var h := History(s, e);
    HistoryOrdered(s, e);
    var w := cfg.calibrationWindow;
    since := if h == [] then 0 else if w == 0 then h[0].at + 1 else h[if w <= |h| then w - 1 else |h| - 1].at;
    SincePrefix(h, since);
    HistorySince(s, e, since);
    if |h| < w {
      AllInHistory(s, e, since);
    } else if w == 0 {
      assert h != [] ==> h[0].at < since;
    } else {
      assert h[w - 1].at >= since && (w < |h| ==> h[w].at < since);
    }
  }

  lemma AllInHistory(s: State, e: ExpertId, since: int)
    requires TimesOrdered(s) && forall i | 0 <= i < |History(s, e)| :: History(s, e)[i].at >= since
    ensures NoneBefore(s, e, since)
  {
    hide Merge, TimesOrdered, Concerns;
    var h := History(s, e);
    HistoryOrdered(s, e);
    forall i | 0 <= i < |s.reviews| && Concerns(s.grades, s.reviews[i], e) ensures s.reviews[i].at >= since {
      ReviewSignalsAre(s.grades, s.reviews, e, s.reviews[i].at, s.reviews[i].decision == Approve);
      assert i in ReviewsAt(s.grades, s.reviews, e, s.reviews[i].at, s.reviews[i].decision == Approve);
      InHistory(h, Signal(s.reviews[i].at, s.reviews[i].decision == Approve), since);
    }
    forall i | 0 <= i < |s.checks| && s.checks[i].expert == e ensures s.checks[i].at >= since {
      CheckSignalsAre(s.checks, e, s.checks[i].at, s.checks[i].passed);
      assert i in ChecksAt(s.checks, e, s.checks[i].at, s.checks[i].passed);
      InHistory(h, Signal(s.checks[i].at, s.checks[i].passed), since);
    }
  }

  lemma InHistory(h: seq<Signal>, x: Signal, since: int)
    requires multiset(h)[x] > 0 && forall i | 0 <= i < |h| :: h[i].at >= since
    ensures x.at >= since
  {
    assert x in multiset(h);
    assert x in h;
  }
}
