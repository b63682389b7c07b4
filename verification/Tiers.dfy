/** The signals of an expert only grow at the newest end, and every tier move is justified by them. */
module Tiers {
  import opened Wrappers
  import opened Model
  import opened Scores
  import opened Tables
  import opened Windows
  import opened TaskInvariant
  import opened Invariant
  import opened Calibration
  import Routing
  import Grading
  import Attention
  import Consensus
  import Payouts
  import Ledger
  import Ops
  import Service

  /** The expert's whole merged history, newest first. */
  function History(s: State, e: ExpertId): (r: seq<Signal>) {
    Merge(ReviewSignals(s.grades, s.reviews, e), CheckSignals(s.checks, e))
  }

  lemma FlagsLimit(xs: seq<Signal>, n: nat)
    ensures Flags(Limit(xs, n)) == Limit(Flags(xs), n)
  {
  }

  /** Reading only the newest `window` of each source gives the newest `window` of the whole history. */
  lemma WindowOfHistory(s: State, e: ExpertId, window: nat)
    ensures SignalFlags(s, e, window) == Limit(Flags(History(s, e)), window)
  {
    TruncatedMerge(ReviewSignals(s.grades, s.reviews, e), CheckSignals(s.checks, e), window, window, window);
    FlagsLimit(History(s, e), window);
  }

  // ----- growth ----------------------------------------------------------------------------

  /** The later history is the earlier one with some newer signals in front. */
  ghost predicate Grows(was: seq<Signal>, now: seq<Signal>) {
    |was| <= |now| && now[|now| - |was|..] == was
  }

  lemma GrowsTransitive(a: seq<Signal>, b: seq<Signal>, c: seq<Signal>)
    requires Grows(a, b) && Grows(b, c)
    ensures Grows(a, c)
  {
    assert c[|c| - |a|..] == c[|c| - |b|..][|b| - |a|..];
  }

  lemma {:induction false} MergeNewer(recent: seq<Signal>, a: seq<Signal>, b: seq<Signal>)
    requires forall x <- recent, y <- b :: x.at > y.at
    ensures Merge(recent + a, b) == recent + Merge(a, b)
  {
    if recent == [] || b == [] {
      assert recent + a == a || b == [];
    } else {
      assert recent[0] in recent && b[0] in b;
      MergeNewer(recent[1..], a, b);
      assert (recent + a)[1..] == recent[1..] + a;
    }
  }

  lemma {:induction false} ReviewSignalsBounded(grades: seq<Grade>, reviews: seq<Review>, e: ExpertId, clock: int)
    requires forall i | 0 <= i < |reviews| :: reviews[i].at <= clock
    ensures forall x <- ReviewSignals(grades, reviews, e) :: x.at <= clock
  {
    if reviews != [] {
      ReviewSignalsBounded(grades, reviews[..|reviews| - 1], e, clock);
    }
  }

  lemma {:induction false} CheckSignalsBounded(checks: seq<Check>, e: ExpertId, clock: int)
    requires forall i | 0 <= i < |checks| :: checks[i].at <= clock
    ensures forall x <- CheckSignals(checks, e) :: x.at <= clock
  {
    if checks != [] {
      CheckSignalsBounded(checks[..|checks| - 1], e, clock);
    }
  }

  /** New reviews put their signals in front. */
  lemma {:induction false} ReviewSignalsAppend(grades: seq<Grade>, reviews: seq<Review>, rows: seq<Review>, e: ExpertId)
    ensures ReviewSignals(grades, reviews + rows, e)
         == ReviewSignals(grades, rows, e) + ReviewSignals(grades, reviews, e)
  {
    if rows == [] {
      assert reviews + rows == reviews;
    } else {
      var front, last := rows[..|rows| - 1], rows[|rows| - 1];
      ReviewSignalsAppend(grades, reviews, front, e);
      assert (reviews + rows)[..|reviews + rows| - 1] == reviews + front;
    }
  }

  lemma {:induction false} ReviewSignalsAt(grades: seq<Grade>, rows: seq<Review>, e: ExpertId, now: int)
    requires forall i | 0 <= i < |rows| :: rows[i].at == now
    ensures forall x <- ReviewSignals(grades, rows, e) :: x.at == now
  {
    if rows != [] {
      ReviewSignalsAt(grades, rows[..|rows| - 1], e, now);
    }
  }

  /** A grade that is not reviewed yet gives no signal. */
  lemma {:induction false} ReviewSignalsFrame(grades: seq<Grade>, more: seq<Grade>, reviews: seq<Review>, e: ExpertId)
    requires forall i | 0 <= i < |reviews| :: reviews[i].grade < |grades|
    ensures ReviewSignals(grades + more, reviews, e) == ReviewSignals(grades, reviews, e)
  {
    if reviews != [] {
      ReviewSignalsFrame(grades, more, reviews[..|reviews| - 1], e);
    }
  }

  /** Reviews all written now put newer signals in front of the history. */
  lemma ReviewsGrow(s: State, s': State, clock: int, now: int, rows: seq<Review>, e: ExpertId)
    requires ReviewsOk(s, clock) && ChecksOk(s, clock) && clock < now
    requires s'.grades == s.grades && s'.checks == s.checks && s'.reviews == s.reviews + rows
    requires forall i | 0 <= i < |rows| :: rows[i].at == now
    ensures History(s', e) == ReviewSignals(s.grades, rows, e) + History(s, e)
    ensures Grows(History(s, e), History(s', e))
  {
    ReviewSignalsAppend(s.grades, s.reviews, rows, e);
    ReviewSignalsAt(s.grades, rows, e, now);
    CheckSignalsBounded(s.checks, e, clock);
    MergeNewer(ReviewSignals(s.grades, rows, e), ReviewSignals(s.grades, s.reviews, e), CheckSignals(s.checks, e));
  }

  lemma CheckGrows(s: State, s': State, clock: int, now: int, grade: Grade, check: Option<Check>, e: ExpertId)
    requires ReviewsOk(s, clock) && ChecksOk(s, clock) && clock < now
    requires s'.grades == s.grades + [grade] && s'.reviews == s.reviews
    requires s'.checks == s.checks + (if check.Some? then [check.value] else [])
    requires check.Some? ==> check.value.at == now
    ensures Grows(History(s, e), History(s', e))
  {
    ReviewSignalsFrame(s.grades, [grade], s.reviews, e);
    if check.Some? {
      assert s'.checks[..|s'.checks| - 1] == s.checks;
      ReviewSignalsBounded(s.grades, s.reviews, e, clock);
      CheckSignalsBounded(s.checks, e, clock);
      var x, a, b := Signal(now, check.value.passed), CheckSignals(s.checks, e), ReviewSignals(s.grades, s.reviews, e);
      assert CheckSignals(s'.checks, e) == if check.value.expert == e then [x] + a else a;
      if check.value.expert == e {
        NewestMerges(x, a, b);
        assert ([x] + Merge(b, a))[1..] == Merge(b, a);
      }
    } else {
      assert s'.checks == s.checks;
    }
  }

  lemma SignalsGrow(cfg: Settings, s: State, s': State, clock: int, now: int, ev: Service.Event, e: ExpertId)
    requires Inv(cfg, s, clock) && clock < now && Grades(ev) && Service.Apply(cfg, s, now, ev) == Ok(s')
    ensures Grows(History(s, e), History(s', e))
  {
    hide History, Consensus.Resolve, Grading.ReviewGrade, TaskOk, Entries;
    match ev {
      case Submit(x, t, scores, given) =>
        SubmitRows(cfg, s, s', now, x, t, scores, given);
        CheckGrows(s, s', clock, now, s'.grades[|s.grades|], Ledger.SubmittedCheck(cfg, s, now, x, t, scores), e);
      case ReviewGrade(g, d) =>
        ReviewRows(cfg, s, s', now, g, d);
        ReviewsGrow(s, s', clock, now, [Review(g, d, now)], e);
      case Resolve(t, delivered) =>
        ResolveRows(cfg, s, s', now, t, delivered);
        ReviewsGrow(s, s', clock, now, VerdictRows(TaskEntries(s, t), delivered, now), e);
    }
  }

  /** A table change outside grading leaves every history alone. */
  lemma SignalsStay(cfg: Settings, s: State, s': State, now: int, ev: Service.Event, e: ExpertId)
    requires Linked(s) && !Grades(ev) && Service.Apply(cfg, s, now, ev) == Ok(s')
    ensures History(s', e) == History(s, e)
  {
    hide History, Merge, ReviewSignals, CheckSignals;
    SameSignals(s, s', e);
  }

  lemma SameSignals(s: State, s': State, e: ExpertId)
    ensures s'.grades == s.grades && s'.reviews == s.reviews && s'.checks == s.checks ==>
              History(s', e) == History(s, e)
  {
  }

  // ----- moves ------------------------------------------------------------------------------

  ghost predicate Promotes(cfg: Settings, s: State, e: ExpertId) {
    AtPromoteEdge(SignalFlags(s, e, cfg.calibrationWindow), cfg.calibrationMinSamples, cfg.promoteAt)
  }

  ghost predicate Demotes(cfg: Settings, s: State, e: ExpertId) {
    AtDemoteEdge(SignalFlags(s, e, cfg.calibrationWindow), cfg.calibrationMinSamples, cfg.demoteAt)
  }

  /** A recorded move goes one tier up at the promote edge or one down at the demote edge of the signals in s. */
  ghost predicate Justified(cfg: Settings, s: State, m: Move) {
    var flags := SignalFlags(s, m.expert, cfg.calibrationWindow);
    && flags != [] && m.rate == Rate(flags) && m.samples == |flags|
    && m.to != m.from
    && ((m.to == StepTier(m.from, 1) && Promotes(cfg, s, m.expert))
        || (m.to == StepTier(m.from, -1) && Demotes(cfg, s, m.expert)))
  }

  /** The signals of e, as far as a window can tell. */
  ghost predicate SameFlags(cfg: Settings, s: State, s': State, e: ExpertId) {
    SignalFlags(s, e, cfg.calibrationWindow) == SignalFlags(s', e, cfg.calibrationWindow)
  }

  ghost predicate NewMoves(cfg: Settings, s: State, s': State) {
    && |s.moves| <= |s'.moves| && s'.moves[..|s.moves|] == s.moves
    && forall i | |s.moves| <= i < |s'.moves| :: Justified(cfg, s', s'.moves[i])
  }

  lemma UpdateJustified(cfg: Settings, s: State, e: ExpertId)
    requires e < |s.experts|
    ensures NewMoves(cfg, s, Update(cfg, s, e))
    ensures forall i | |s.moves| <= i < |Update(cfg, s, e).moves| :: Update(cfg, s, e).moves[i].expert == e
    ensures |Update(cfg, s, e).moves| <= |s.moves| + 1
    ensures forall x :: SameFlags(cfg, s, Update(cfg, s, e), x)
  {
    hide Merge, ReviewSignals, CheckSignals, Rate;
    var s', flags := Update(cfg, s, e), SignalFlags(s, e, cfg.calibrationWindow);
    if |s'.moves| > |s.moves| {
      var x := s.experts[e];
      assert s'.moves[|s.moves|] == Move(e, x.tier, Target(cfg, x.tier, flags), Rate(flags), |flags|);
    }
  }

  lemma SameFlagsJustified(cfg: Settings, s: State, s': State, m: Move)
    requires Justified(cfg, s, m) && SameFlags(cfg, s, s', m.expert)
    ensures Justified(cfg, s', m)
  {
  }

  /** Justified moves of two successive changes, when the second leaves the signals of the first's movers alone. */
  lemma NewMovesCompose(cfg: Settings, a: State, b: State, c: State)
    requires NewMoves(cfg, a, b) && NewMoves(cfg, b, c)
    requires forall i | |a.moves| <= i < |b.moves| :: SameFlags(cfg, b, c, b.moves[i].expert)
    ensures NewMoves(cfg, a, c)
  {
    hide Justified, SameFlags;
    assert c.moves[..|a.moves|] == c.moves[..|b.moves|][..|a.moves|];
    forall i | |a.moves| <= i < |c.moves| ensures Justified(cfg, c, c.moves[i]) {
      if i < |b.moves| {
        assert c.moves[i] == c.moves[..|b.moves|][i] == b.moves[i];
        SameFlagsJustified(cfg, b, c, b.moves[i]);
      }
    }
  }

  lemma {:induction false} TickMoves(cfg: Settings, s: State, n: nat)
    requires n <= |s.experts|
    ensures NewMoves(cfg, s, Ops.UpdateAll(cfg, s, n))
    ensures forall x :: SameFlags(cfg, s, Ops.UpdateAll(cfg, s, n), x)
  {
    hide SignalFlags, Update, Justified;
    if n > 0 {
      TickMoves(cfg, s, n - 1);
      UpdateJustified(cfg, Ops.UpdateAll(cfg, s, n - 1), n - 1);
      SameFlagsChain(cfg, s, Ops.UpdateAll(cfg, s, n - 1), Ops.UpdateAll(cfg, s, n));
      NewMovesCompose(cfg, s, Ops.UpdateAll(cfg, s, n - 1), Ops.UpdateAll(cfg, s, n));
    }
  }

  lemma SameFlagsChain(cfg: Settings, a: State, b: State, c: State)
    requires (forall x :: SameFlags(cfg, a, b, x)) && (forall x :: SameFlags(cfg, b, c, x))
    ensures forall x :: SameFlags(cfg, a, c, x)
  {
    forall x ensures SameFlags(cfg, a, c, x) {
      assert SameFlags(cfg, a, b, x) && SameFlags(cfg, b, c, x);
    }
  }

  // ----- the moves of an adjudication -----------------------------------------------------------

  lemma {:induction false} NoSignals(grades: seq<Grade>, rows: seq<Review>, e: ExpertId)
    requires forall i | 0 <= i < |rows| :: rows[i].grade < |grades| ==> grades[rows[i].grade].expert != e
    ensures ReviewSignals(grades, rows, e) == []
  {
    if rows != [] {
      NoSignals(grades, rows[..|rows| - 1], e);
    }
  }

  /** Verdicts on other experts' grades leave the signals of e alone. */
  lemma OthersVerdicts(cfg: Settings, s: State, s': State, now: int, es: seq<Entry>, delivered: GradeId, e: ExpertId)
    requires s'.grades == s.grades && s'.checks == s.checks && s'.reviews == s.reviews + VerdictRows(es, delivered, now)
    requires forall i | 0 <= i < |es| :: es[i].id < |s.grades| && s.grades[es[i].id].expert != e
    ensures SameFlags(cfg, s, s', e)
  {
    hide Merge, Limit;
    var rows := VerdictRows(es, delivered, now);
    forall i | 0 <= i < |rows| ensures s.grades[rows[i].grade].expert != e {
      assert rows[i].grade == es[i].id;
    }
    NoSignals(s.grades, rows, e);
    ReviewSignalsAppend(s.grades, s.reviews, rows, e);
    assert ReviewSignals(s.grades, rows, e) + ReviewSignals(s.grades, s.reviews, e)
        == ReviewSignals(s.grades, s.reviews, e);
  }

  lemma TurnMoves(cfg: Settings, s: State, s1: State, now: int, g: GradeId, delivered: GradeId)
    requires Linked(s) && g < |s.grades| && Consensus.ResolveOne(cfg, s, now, g, delivered) == Ok(s1)
    ensures NewMoves(cfg, s, s1)
    ensures forall i | |s.moves| <= i < |s1.moves| :: s1.moves[i].expert == s.grades[g].expert
  {
    hide Update, SignalFlags, Justified;
    var verdict := Review(g, if g == delivered then Approve else Reject, now);
    var s2 := Consensus.RoundPayout(cfg, s.(reviews := s.reviews + [verdict]), g, g == delivered).value;
    UpdateJustified(cfg, s2, s2.grades[g].expert);
  }

  lemma {:induction false} ResolveMoves(cfg: Settings, s: State, s': State, now: int, es: seq<Entry>,
        delivered: GradeId)
    requires Linked(s) && (forall e <- es :: e.id < |s.grades|)
    requires forall i, j :: 0 <= i < j < |es| ==> s.grades[es[i].id].expert != s.grades[es[j].id].expert
    requires Consensus.ResolveAll(cfg, s, now, es, delivered) == Ok(s')
    ensures NewMoves(cfg, s, s')
    decreases |es|
  {
    hide Consensus.ResolveOne, Justified, SameFlags, Linked;
    if es != [] {
      var s1 := Consensus.ResolveOne(cfg, s, now, es[0].id, delivered).value;
      TurnMoves(cfg, s, s1, now, es[0].id, delivered);
      forall i | 0 <= i < |es[1..]| ensures es[1..][i] == es[i + 1] {
      }
      ResolveMoves(cfg, s1, s', now, es[1..], delivered);
      ResolveReviews(cfg, s1, s', now, es[1..], delivered);
      OthersVerdicts(cfg, s1, s', now, es[1..], delivered, s.grades[es[0].id].expert);
      NewMovesCompose(cfg, s, s1, s');
    }
  }

  // ----- every request ----------------------------------------------------------------------------

  lemma SubmitMoves(cfg: Settings, s: State, s': State, now: int, e: ExpertId, t: TaskId, scores: ScoreSheet,
        given: Option<RubricId>)
    requires Linked(s) && e < |s.experts| && Grading.Submit(cfg, s, now, e, t, scores, given) == Ok(s')
    ensures NewMoves(cfg, s, s')
  {
    hide Update, SignalFlags, Justified, Consensus.NewRound, Entries, Attention.Trips;
    var s1 := Grading.Recorded(s, now, e, t, scores);
    var r2 := if s1.tasks[t].status == Submitted then Consensus.Evaluate(cfg, s1, t) else Ok(s1);
    EvaluateRows(cfg, s, s1, r2.value, t, e);
    var check := Attention.CheckOf(cfg, r2.value.tasks[t], |s.grades|, r2.value.grades[|s.grades|]);
    if check.Some? {
      var s3 := r2.value.(checks := r2.value.checks + [check.value]);
      var s4 := if check.value.passed then s3 else Attention.Enforce(cfg, s3, e);
      UpdateJustified(cfg, s4, e);
    }
  }

  lemma ReviewMoves(cfg: Settings, s: State, s': State, now: int, g: GradeId, d: Decision)
    requires Linked(s) && Grading.ReviewGrade(cfg, s, now, g, d) == Ok(s')
    ensures NewMoves(cfg, s, s')
  {
    hide Update, SignalFlags, Justified, Entries, DecisionOf;
    var t := s.grades[g].task;
    var s1 := s.(reviews := s.reviews + [Review(g, d, now)]);
    var r2 := if d == Approve then Payouts.CreateForGrade(s1, g, 1.0) else Ok(s1);
    var s3 := r2.value.(tasks := r2.value.tasks[t := Grading.ReviewedRow(r2.value.tasks[t], d)]);
    var s4 := if d == Reject then Consensus.Redeliver(s3, t, g) else s3;
    UpdateJustified(cfg, s4, s4.grades[g].expert);
  }

  lemma NoMoves(cfg: Settings, s: State, s': State)
    requires s'.moves == s.moves
    ensures NewMoves(cfg, s, s')
  {
  }

  lemma DistinctAuthors(cfg: Settings, s: State, clock: int, t: TaskId)
    requires Inv(cfg, s, clock)
    ensures var es := TaskEntries(s, t);
            && (forall e <- es :: e.id < |s.grades|)
            && (forall i, j :: 0 <= i < j < |es| ==> s.grades[es[i].id].expert != s.grades[es[j].id].expert)
  {
    EntryIds(s.grades, s.reviews, t);
    EntryIdsAscend(s.grades, s.reviews, t);
    var es := TaskEntries(s, t);
    forall i, j | 0 <= i < j < |es| ensures s.grades[es[i].id].expert != s.grades[es[j].id].expert {
      assert es[i] in es && es[j] in es && es[i].id < es[j].id;
    }
  }

  lemma GradeMoves(cfg: Settings, s: State, s': State, clock: int, now: int, ev: Service.Event)
    requires Inv(cfg, s, clock) && clock < now && Grades(ev) && Service.Apply(cfg, s, now, ev) == Ok(s')
    ensures NewMoves(cfg, s, s')
  {
    hide NewMoves, Grading.Submit, Grading.ReviewGrade, Consensus.ResolveAll, TasksOk;
    match ev {
      case Submit(x, t, scores, given) =>
        SubmitMoves(cfg, s, s', now, x, t, scores, given);
      case ReviewGrade(g, d) =>
        ReviewMoves(cfg, s, s', now, g, d);
      case Resolve(t, delivered) =>
        var es := TaskEntries(s, t);
        DistinctAuthors(cfg, s, clock, t);
        var s1 := Consensus.ResolveAll(cfg, s, now, es, delivered).value;
        ResolveMoves(cfg, s, s1, now, es, delivered);
        MovesFrame(cfg, s, s1, s');
    }
  }

  lemma MovesFrame(cfg: Settings, s: State, s1: State, s': State)
    requires NewMoves(cfg, s, s1) && s' == s1.(tasks := s'.tasks, rounds := s'.rounds)
    ensures NewMoves(cfg, s, s')
  {
    hide Merge, ReviewSignals, CheckSignals, Rate;
    forall i | |s.moves| <= i < |s'.moves| ensures Justified(cfg, s', s'.moves[i]) {
      assert Justified(cfg, s1, s1.moves[i]);
    }
  }

  lemma AcceptedMoves(cfg: Settings, s: State, s': State, clock: int, now: int, ev: Service.Event)
    requires Inv(cfg, s, clock) && clock < now && Service.Apply(cfg, s, now, ev) == Ok(s')
    ensures NewMoves(cfg, s, s')
  {
    hide NewMoves, TasksOk, Update, Routing.Eligible, Routing.PickAmong;
    if Grades(ev) {
      GradeMoves(cfg, s, s', clock, now, ev);
    } else if ev.Tick? {
      TickMovesNow(cfg, s, now);
    } else {
      NoMoves(cfg, s, s');
    }
  }

  lemma TickMovesNow(cfg: Settings, s: State, now: int)
    ensures NewMoves(cfg, s, Ops.Tick(cfg, s, now))
  {
    hide Justified, Ops.UpdateAll;
    var s1 := Routing.ReclaimExpired(s, now);
    TickMoves(cfg, s1, |s1.experts|);
  }

  // ----- the band ------------------------------------------------------------------------------------

  /** Between a promotion and a later demotion, or the other way round, at least (p - d) * m signals arrived. */
  lemma OppositeEdges(cfg: Settings, a: State, b: State, e: ExpertId)
    requires cfg.demoteAt < cfg.promoteAt && Grows(History(a, e), History(b, e))
    requires (Promotes(cfg, a, e) && Demotes(cfg, b, e)) || (Demotes(cfg, a, e) && Promotes(cfg, b, e))
    ensures (|History(b, e)| - |History(a, e)|) as real
         >= (cfg.promoteAt - cfg.demoteAt) * cfg.calibrationMinSamples as real
  {
    hide History, SignalFlags;
    var was, now := Flags(History(a, e)), Flags(History(b, e));
    var recent := now[..|now| - |was|];
    assert now == recent + was by {
      forall i | 0 <= i < |was| ensures now[|recent| + i] == was[i] {
        assert History(b, e)[|recent| + i] == History(b, e)[|recent|..][i];
      }
    }
    WindowOfHistory(a, e, cfg.calibrationWindow);
    WindowOfHistory(b, e, cfg.calibrationWindow);
    BandDistance(recent, was, cfg.calibrationWindow, cfg.calibrationMinSamples, cfg.promoteAt, cfg.demoteAt);
  }

  /** With no fresh signal a second update never turns back, and a third changes nothing. */
  lemma UpdateSettles(cfg: Settings, s: State, e: ExpertId)
    requires e < |s.experts| && cfg.demoteAt < cfg.promoteAt
    ensures var s1 := Update(cfg, s, e);
            var s2 := Update(cfg, s1, e);
            && Update(cfg, s2, e) == s2
            && (Rank(s1.experts[e].tier) > Rank(s.experts[e].tier) ==>
                  Rank(s2.experts[e].tier) >= Rank(s1.experts[e].tier))
            && (Rank(s1.experts[e].tier) < Rank(s.experts[e].tier) ==>
                  Rank(s2.experts[e].tier) <= Rank(s1.experts[e].tier))
            && (s1.experts[e].tier == s.experts[e].tier ==> s2 == s1)
  {
    hide Merge, ReviewSignals, CheckSignals;
    var s1 := Update(cfg, s, e);
    var s2 := Update(cfg, s1, e);
    var flags := SignalFlags(s, e, cfg.calibrationWindow);
    assert SignalFlags(s1, e, cfg.calibrationWindow) == flags && SignalFlags(s2, e, cfg.calibrationWindow) == flags;
    assert Update(cfg, s2, e).experts == s2.experts;
  }

  // ----- the order of the history ---------------------------------------------------------------------

  /** Reviews and checks are stored in the order they were made. */
  ghost predicate TimesOrdered(s: State) {
    && (forall i, j :: 0 <= i < j < |s.reviews| ==> s.reviews[i].at <= s.reviews[j].at)
    && (forall i, j :: 0 <= i < j < |s.checks| ==> s.checks[i].at <= s.checks[j].at)
  }

  lemma TimesAppend(s: State, s': State, clock: int, now: int, rows: seq<Review>, checks: seq<Check>)
    requires ReviewsOk(s, clock) && ChecksOk(s, clock) && TimesOrdered(s) && clock < now
    requires s'.reviews == s.reviews + rows && s'.checks == s.checks + checks
    requires (forall i | 0 <= i < |rows| :: rows[i].at == now) && (forall i | 0 <= i < |checks| :: checks[i].at == now)
    ensures TimesOrdered(s')
  {
  }

  lemma AcceptedTimes(cfg: Settings, s: State, s': State, clock: int, now: int, ev: Service.Event)
    requires Inv(cfg, s, clock) && TimesOrdered(s) && clock < now && Service.Apply(cfg, s, now, ev) == Ok(s')
    ensures TimesOrdered(s')
  {
    hide TimesOrdered, TasksOk, Consensus.Resolve, Grading.ReviewGrade, Grading.Submit, Grading.ValidScores;
    if ev.Submit? {
      SubmitRows(cfg, s, s', now, ev.expert, ev.task, ev.scores, ev.given);
      var check := Ledger.SubmittedCheck(cfg, s, now, ev.expert, ev.task, ev.scores);
      TimesAppend(s, s', clock, now, [], if check.Some? then [check.value] else []);
    } else if ev.ReviewGrade? {
      ReviewRows(cfg, s, s', now, ev.grade, ev.decision);
      TimesAppend(s, s', clock, now, [Review(ev.grade, ev.decision, now)], []);
    } else if ev.Resolve? {
      ResolveRows(cfg, s, s', now, ev.task, ev.delivered);
      TimesAppend(s, s', clock, now, VerdictRows(TaskEntries(s, ev.task), ev.delivered, now), []);
    } else {
      SignalTables(cfg, s, s', now, ev);
      TimesAppend(s, s', clock, now, [], []);
    }
  }

  lemma SignalTables(cfg: Settings, s: State, s': State, now: int, ev: Service.Event)
    requires Linked(s) && !Grades(ev) && Service.Apply(cfg, s, now, ev) == Ok(s')
    ensures s'.reviews == s.reviews && s'.checks == s.checks
  {
    hide Calibration.Update, Routing.Eligible, Routing.PickAmong;
  }

  lemma {:induction false} ReviewsNewestFirst(grades: seq<Grade>, reviews: seq<Review>, e: ExpertId)
    requires forall i, j :: 0 <= i < j < |reviews| ==> reviews[i].at <= reviews[j].at
    ensures NewestFirst(ReviewSignals(grades, reviews, e))
  {
    if reviews != [] {
      var front, last := reviews[..|reviews| - 1], reviews[|reviews| - 1];
      ReviewsNewestFirst(grades, front, e);
      ReviewSignalsBounded(grades, front, e, last.at);
      var rest := ReviewSignals(grades, front, e);
      assert forall i | 0 <= i < |rest| :: rest[i] in rest;
    }
  }

  lemma {:induction false} ChecksNewestFirst(checks: seq<Check>, e: ExpertId)
    requires forall i, j :: 0 <= i < j < |checks| ==> checks[i].at <= checks[j].at
    ensures NewestFirst(CheckSignals(checks, e))
  {
    if checks != [] {
      var front, last := checks[..|checks| - 1], checks[|checks| - 1];
      ChecksNewestFirst(front, e);
      CheckSignalsBounded(front, e, last.at);
      var rest := CheckSignals(front, e);
      assert forall i | 0 <= i < |rest| :: rest[i] in rest;
    }
  }

  /** The merged history is ordered newest first and holds exactly the expert's reviews and checks. */
  lemma HistoryOrdered(s: State, e: ExpertId)
    requires TimesOrdered(s)
    ensures NewestFirst(History(s, e))
    ensures multiset(History(s, e))
         == multiset(ReviewSignals(s.grades, s.reviews, e)) + multiset(CheckSignals(s.checks, e))
  {
    ReviewsNewestFirst(s.grades, s.reviews, e);
    ChecksNewestFirst(s.checks, e);
    MergeSorts(ReviewSignals(s.grades, s.reviews, e), CheckSignals(s.checks, e));
  }

  // ----- the tick -----------------------------------------------------------------------------------------

  /** The stored score and samples of an expert are those of the window of signals. */
  predicate Fresh(cfg: Settings, s: State, e: ExpertId)
    requires e < |s.experts|
  {
    var flags := SignalFlags(s, e, cfg.calibrationWindow);
    s.experts[e].samples == |flags| && s.experts[e].calibration == if flags == [] then None else Some(Rate(flags))
  }

  lemma {:induction false} AllFresh(cfg: Settings, s: State, n: nat, e: ExpertId)
    requires e < n <= |s.experts|
    ensures Fresh(cfg, Ops.UpdateAll(cfg, s, n), e)
  {
    hide Update, Fresh;
    if e < n - 1 {
      AllFresh(cfg, s, n - 1, e);
    }
    UpdateFresh(cfg, Ops.UpdateAll(cfg, s, n - 1), n - 1, e);
  }

  lemma UpdateFresh(cfg: Settings, s: State, e: ExpertId, x: ExpertId)
    requires e < |s.experts| && x < |s.experts| && (x == e || Fresh(cfg, s, x))
    ensures Fresh(cfg, Update(cfg, s, e), x)
  {
    hide Merge, ReviewSignals, CheckSignals, Rate;
    UpdateJustified(cfg, s, e);
    assert SameFlags(cfg, s, Update(cfg, s, e), x);
  }

  /** After a tick no lease is expired and every expert's stored score is that of their signals. */
  lemma TickRefreshes(cfg: Settings, s: State, now: int, e: ExpertId, t: TaskId)
    requires e < |s.experts| && t < |s.tasks|
    ensures var s' := Ops.Tick(cfg, s, now);
            e < |s'.experts| && Fresh(cfg, s', e) && |s'.tasks| == |s.tasks| && !Routing.Expired(s'.tasks[t], now)
  {
    hide Fresh, Ops.UpdateAll;
    AllFresh(cfg, Routing.ReclaimExpired(s, now), |s.experts|, e);
  }
}
