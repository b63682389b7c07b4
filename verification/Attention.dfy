/** panelist/services/attention.py: golden tasks, and the guard that pauses an expert who fails them. */
module Attention {
  import opened Wrappers
  import opened Model
  import opened Tables
  import opened Windows
  import opened Payouts
  import Scores

  function Deviation(scores: ScoreSheet, key: Key, expected: real): (r: real) {
    Scores.Abs((if key in scores then scores[key] else 0.0) - expected)
  }

  function MaxDeviation(expected: seq<(Key, real)>, scores: ScoreSheet): (r: real) {
    if expected == [] then 0.0 else
      var d, rest := Deviation(scores, expected[0].0, expected[0].1), MaxDeviation(expected[1..], scores);
      if d > rest then d else rest
  }

  /** The check a grade on a golden task with expected scores leaves behind. */
  function CheckOf(cfg: Settings, task: Task, g: GradeId, grade: Grade): (r: Option<Check>) {
    if !task.golden || task.expected == [] then None else
      var dev := MaxDeviation(task.expected, grade.scores);
      Some(Check(grade.task, grade.expert, g, dev <= cfg.attentionTolerance, dev, grade.at))
  }

  method Evaluate(db: Session, cfg: Settings, g: GradeId) returns (r: Option<Check>)
    requires g < |db.grades| && db.grades[g].task < |db.tasks|
    modifies db
    ensures r == old(CheckOf(cfg, db.tasks[db.grades[g].task], g, db.grades[g]))
    ensures db.Snapshot() == old(db.Snapshot()).(checks := old(db.checks) + if r.Some? then [r.value] else [])
  {
    var grade := db.grades[g];
    var task := db.tasks[grade.task];
    if !task.golden || task.expected == [] {
      return None;
    }
    var worst, i := 0.0, |task.expected|;
    while i > 0
      invariant 0 <= i <= |task.expected|
      invariant worst == MaxDeviation(task.expected[i..], grade.scores)
    {
      i := i - 1;
      var d := Deviation(grade.scores, task.expected[i].0, task.expected[i].1);
      assert task.expected[i..][1..] == task.expected[i + 1..];
      if d > worst {
        worst := d;
      }
    }
    assert task.expected[0..] == task.expected;
    var check := Check(grade.task, grade.expert, g, worst <= cfg.attentionTolerance, worst, grade.at);
    db.checks := db.checks + [check];
    return Some(check);
  }

  function CheckFlags(checks: seq<Check>, e: ExpertId): (r: seq<bool>) {
    Flags(CheckSignals(checks, e))
  }

  /** The newest `window` results: the rate, how many passed, how many there are. */
  function RollingPassRate(cfg: Settings, checks: seq<Check>, e: ExpertId): (r: (Option<real>, nat, nat)) {
    var recent := Limit(CheckFlags(checks, e), cfg.attentionWindow);
    if recent == [] then (None, 0, 0) else (Some(Rate(recent)), Agreeing(recent), |recent|)
  }

  /** The rolling rate is known, rests on enough checks and is below the threshold. */
  predicate Trips(cfg: Settings, checks: seq<Check>, e: ExpertId) {
    var (rate, _, total) := RollingPassRate(cfg, checks, e);
    rate.Some? && total >= cfg.attentionMinChecks && rate.value < cfg.attentionThreshold
  }

  function Enforce(cfg: Settings, s: State, e: ExpertId): (r: State)
    requires e < |s.experts|
    ensures r == s.(experts := r.experts, payouts := r.payouts) && |r.experts| == |s.experts|
  {
    if !Trips(cfg, s.checks, e) || s.experts[e].status == Paused then s else
      s.(experts := s.experts[e := s.experts[e].(status := Paused)],
         payouts := Restate(s.payouts, e, Pending, Withheld))
  }

  method EnforceGuard(db: Session, cfg: Settings, e: ExpertId) returns (paused: bool)
    requires e < |db.experts|
    modifies db
    ensures db.Snapshot() == Enforce(cfg, old(db.Snapshot()), e)
    ensures paused <==> old(db.experts[e].status) != Paused && db.experts[e].status == Paused
  {
    var (rate, _, total) := RollingPassRate(cfg, db.checks, e);
    if rate == None || total < cfg.attentionMinChecks || rate.value >= cfg.attentionThreshold {
      return false;
    }
    if db.experts[e].status == Paused {
      return false;
    }
    db.experts := db.experts[e := db.experts[e].(status := Paused)];
    db.payouts := Restate(db.payouts, e, Pending, Withheld);
    return true;
  }

  /** A check is passed exactly when every expected score is met within the tolerance; a missing key counts as zero. */
  lemma {:induction false} WithinMeansEach(expected: seq<(Key, real)>, scores: ScoreSheet, tolerance: real)
    requires 0.0 <= tolerance
    ensures MaxDeviation(expected, scores) <= tolerance <==>
              forall i | 0 <= i < |expected| ::
                -tolerance
                <= (if expected[i].0 in scores then scores[expected[i].0] else 0.0) - expected[i].1
                <= tolerance
  {
    if expected != [] {
      WithinMeansEach(expected[1..], scores, tolerance);
      forall i | 0 < i < |expected| ensures expected[1..][i - 1] == expected[i] {
      }
    }
  }
}
