/** panelist/services/calibration.py: rolling agreement moves an expert between tiers. */
module Calibration {
  import opened Wrappers
  import opened Model
  import opened Tables
  import opened Windows

  /** Newest-first agreement flags: the newest `window` of each source, merged and cut to `window`. */
  function SignalFlags(s: State, e: ExpertId, window: nat): (r: seq<bool>) {
    var reviews := Limit(ReviewSignals(s.grades, s.reviews, e), window);
    var checks := Limit(CheckSignals(s.checks, e), window);
    Flags(Limit(Merge(reviews, checks), window))
  }

  function ScoreOf(flags: seq<bool>): (r: (Option<real>, nat)) {
    if flags == [] then (None, 0) else (Some(Rate(flags)), |flags|)
  }

  function TierAt(index: int): (t: Tier) {
    if index <= 0 then Junior else if index == 1 then Senior else Lead
  }

  function StepTier(t: Tier, delta: int): (r: Tier) {
    TierAt(Rank(t) + delta)
  }

  function Target(cfg: Settings, tier: Tier, flags: seq<bool>): (r: Tier) {
    if flags == [] || |flags| < cfg.calibrationMinSamples then tier
    else if Rate(flags) >= cfg.promoteAt then StepTier(tier, 1)
    else if Rate(flags) <= cfg.demoteAt then StepTier(tier, -1)
    else tier
  }

  function Recalibrated(cfg: Settings, x: Expert, flags: seq<bool>): (r: Expert) {
    x.(calibration := ScoreOf(flags).0, samples := ScoreOf(flags).1, tier := Target(cfg, x.tier, flags))
  }

  function Update(cfg: Settings, s: State, e: ExpertId): (r: State)
    requires e < |s.experts|
    ensures r == s.(experts := r.experts, moves := r.moves) && |r.experts| == |s.experts|
  {
    var flags := SignalFlags(s, e, cfg.calibrationWindow);
    var x := s.experts[e];
    var target := Target(cfg, x.tier, flags);
    s.(experts := s.experts[e := Recalibrated(cfg, x, flags)],
       moves := if target == x.tier then s.moves else s.moves + [Move(e, x.tier, target, Rate(flags), |flags|)])
  }

  method UpdateExpert(db: Session, cfg: Settings, e: ExpertId) returns (moved: bool)
    requires e < |db.experts|
    modifies db
    ensures db.Snapshot() == Update(cfg, old(db.Snapshot()), e)
    ensures moved <==> db.experts[e].tier != old(db.experts[e].tier)
    ensures |db.experts| == old(|db.experts|) && db.experts[..e] == old(db.experts)[..e]
    ensures old(db.moves) <= db.moves && |db.moves| == old(|db.moves|) + if moved then 1 else 0
  {
    var flags := SignalFlags(db.Snapshot(), e, cfg.calibrationWindow);
    var (rate, samples) := ScoreOf(flags);
    db.experts := db.experts[e := db.experts[e].(calibration := rate, samples := samples)];
    if rate == None || samples < cfg.calibrationMinSamples {
      return false;
    }
    var expert := db.experts[e];
    var target := expert.tier;
    if rate.value >= cfg.promoteAt {
      target := StepTier(expert.tier, 1);
    } else if rate.value <= cfg.demoteAt {
      target := StepTier(expert.tier, -1);
    }
    if target == expert.tier {
      return false;
    }
    db.moves := db.moves + [Move(e, expert.tier, target, rate.value, samples)];
    db.experts := db.experts[e := expert.(tier := target)];
    return true;
  }
}
