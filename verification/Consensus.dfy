/** panelist/services/consensus.py: the round of a task with several graders, and its adjudication. */
module Consensus {
  import opened Wrappers
  import opened Model
  import opened Scores
  import opened Tables
  import Payouts
  import Calibration

  function NewRound(cfg: Settings, es: seq<Entry>): (r: Round)
    requires es != []
  {
    var spread := Spread(es);
    if spread <= cfg.consensusTolerance
    then Round(Agreed, |es|, spread, cfg.consensusTolerance, Some(ClosestToMean(es).id))
    else Round(Adjudicating, |es|, spread, cfg.consensusTolerance, None)
  }

  /** Score the completed grades of a task: agree within tolerance, or open an adjudication. */
  function Evaluate(cfg: Settings, s: State, t: TaskId): (r: Result<State>)
    requires t < |s.tasks|
    ensures r.Ok? ==> r.value == s.(rounds := r.value.rounds, tasks := r.value.tasks) && |r.value.tasks| == |s.tasks|
  {
    var es := UnrejectedOf(TaskEntries(s, t));
    if |es| < 2 then Ok(s)
    else if t in s.rounds then Err(Integrity)
    else
      var round := NewRound(cfg, es);
      Ok(s.(rounds := s.rounds[t := round],
            tasks := if round.status != Adjudicating then s.tasks
                     else s.tasks[t := s.tasks[t].(status := Adjudication)]))
  }

  method EvaluateRound(db: Session, cfg: Settings, t: TaskId) returns (r: Result<()>)
    requires t < |db.tasks|
    modifies db
    ensures match Evaluate(cfg, old(db.Snapshot()), t)
            case Ok(s) => r.Ok? && db.Snapshot() == s
            case Err(e) => r == Err(e)
  {
    var es := UnrejectedOf(Entries(db.grades, db.reviews, t));
    if |es| < 2 {
      return Ok(());
    }
    var spread := MaxScore(es) - MinScore(es);
    var agreed := spread <= cfg.consensusTolerance;
    var row := Round(if agreed then Agreed else Adjudicating, |es|, spread, cfg.consensusTolerance,
                     if agreed then Some(ClosestToMean(es).id) else None);
    if !agreed {
      db.tasks := db.tasks[t := db.tasks[t].(status := Adjudication)];
    }
    if t in db.rounds {
      return Err(Integrity);
    }
    db.rounds := db.rounds[t := row];
    return Ok(());
  }

  /** The grade an agreed round delivers once a reviewer has rejected the one it had. */
  function Redelivered(es: seq<Entry>): (r: Option<GradeId>) {
    var pool := UnrejectedOf(es);
    var approved := ApprovedOf(pool);
    var candidates := if approved != [] then approved else pool;
    if candidates == [] then None else Some(ClosestToMean(candidates).id)
  }

  function Redeliver(s: State, t: TaskId, rejected: GradeId): (r: State)
    ensures r == s.(rounds := r.rounds)
  {
    if t !in s.rounds || s.rounds[t].status != Agreed || s.rounds[t].delivered != Some(rejected) then s
    else s.(rounds := s.rounds[t := s.rounds[t].(delivered := Redelivered(TaskEntries(s, t)))])
  }

  method RedeliverRound(db: Session, t: TaskId, rejected: GradeId)
    modifies db
    ensures db.Snapshot() == Redeliver(old(db.Snapshot()), t, rejected)
  {
    if t !in db.rounds {
      return;
    }
    var row := db.rounds[t];
    if row.status != Agreed || row.delivered != Some(rejected) {
      return;
    }
    var pool := UnrejectedOf(Entries(db.grades, db.reviews, t));
    var candidates := ApprovedOf(pool);
    if candidates == [] {
      candidates := pool;
    }
    row := row.(delivered := if candidates == [] then None else Some(ClosestToMean(candidates).id));
    db.rounds := db.rounds[t := row];
  }

  /** What the delivered and the outvoted graders of an adjudicated round are paid. */
  function RoundPayout(cfg: Settings, s: State, g: GradeId, chosen: bool): (r: Result<State>)
    requires Linked(s) && g < |s.grades|
    ensures r.Ok? ==> r.value == s.(payouts := r.value.payouts)
  {
    if chosen then Payouts.CreateForGrade(s, g, 1.0)
    else match cfg.outvotedRule
      case NoPay => Ok(s)
      case Full => Payouts.CreateForGrade(s, g, 1.0)
      case Partial => Payouts.CreateForGrade(s, g, cfg.outvotedRate)
  }

  /** The tables an adjudication loop may change. */
  ghost predicate OnlyVerdicts(s: State, s': State) {
    s' == s.(reviews := s'.reviews, payouts := s'.payouts, experts := s'.experts, moves := s'.moves)
  }

  lemma VerdictsLinked(s: State, s': State)
    requires Linked(s) && OnlyVerdicts(s, s') && |s'.experts| == |s.experts|
    ensures Linked(s')
  {
  }

  /** One turn of the adjudication loop: the verdict as a review, the payout, the expert's calibration. */
  function ResolveOne(cfg: Settings, s: State, now: int, g: GradeId, delivered: GradeId): (r: Result<State>)
    requires Linked(s) && g < |s.grades|
    ensures r.Ok? ==> Linked(r.value) && OnlyVerdicts(s, r.value)
  {
    if DecisionOf(s.reviews, g).Some? then Err(Integrity) else
      var verdict := Review(g, if g == delivered then Approve else Reject, now);
      var s2 :- RoundPayout(cfg, s.(reviews := s.reviews + [verdict]), g, g == delivered);
      assert LinkedGrade(s, s.grades[g]);
      var s3 := Calibration.Update(cfg, s2, s2.grades[g].expert);
      VerdictsLinked(s, s3);
      Ok(s3)
  }

  function ResolveAll(cfg: Settings, s: State, now: int, es: seq<Entry>, delivered: GradeId): (r: Result<State>)
    requires Linked(s) && forall e <- es :: e.id < |s.grades|
    decreases |es|
    ensures r.Ok? ==> Linked(r.value) && OnlyVerdicts(s, r.value)
  {
    if es == [] then Ok(s) else
      var s1 :- ResolveOne(cfg, s, now, es[0].id, delivered);
      ResolveAll(cfg, s1, now, es[1..], delivered)
  }

  /** A senior reviewer picks the delivered grade; the others are outvoted. */
  function Resolve(cfg: Settings, s: State, now: int, t: TaskId, delivered: GradeId): (r: Result<State>)
    requires Linked(s)
  {
    if t !in s.rounds || t >= |s.tasks| then Err(Service(404))
    else if s.rounds[t].status != Adjudicating then Err(Service(409))
    else
      var es := TaskEntries(s, t);
      if !(exists e <- es :: e.id == delivered) then Err(Service(422)) else
        EntryIds(s.grades, s.reviews, t);
        var s1 :- ResolveAll(cfg, s, now, es, delivered);
        Ok(s1.(tasks := s1.tasks[t := s1.tasks[t].(status := Approved)],
               rounds := s1.rounds[t := s1.rounds[t].(status := Adjudicated, delivered := Some(delivered))]))
  }

  method ResolveGrade(db: Session, cfg: Settings, now: int, g: GradeId, delivered: GradeId) returns (r: Result<()>)
    requires Linked(db.Snapshot()) && g < |db.grades|
    modifies db
    ensures match ResolveOne(cfg, old(db.Snapshot()), now, g, delivered)
            case Ok(s) => r.Ok? && db.Snapshot() == s
            case Err(e) => r == Err(e)
  {
    if DecisionOf(db.reviews, g).Some? {
      return Err(Integrity);
    }
    var chosen := g == delivered;
    db.reviews := db.reviews + [Review(g, if chosen then Approve else Reject, now)];
    var paid: Result<()> := Ok(());
    if chosen || cfg.outvotedRule == Full {
      paid := Payouts.CreatePayout(db, g, 1.0);
    } else if cfg.outvotedRule == Partial {
      paid := Payouts.CreatePayout(db, g, cfg.outvotedRate);
    }
    if paid.Err? {
      return paid;
    }
    var _ := Calibration.UpdateExpert(db, cfg, db.grades[g].expert);
    return Ok(());
  }

  method ResolveRound(db: Session, cfg: Settings, now: int, t: TaskId, delivered: GradeId) returns (r: Result<()>)
    requires Linked(db.Snapshot())
    modifies db
    ensures match Resolve(cfg, old(db.Snapshot()), now, t, delivered)
            case Ok(s) => r.Ok? && db.Snapshot() == s
            case Err(e) => r == Err(e)
  {
    if t !in db.rounds || t >= |db.tasks| {
      return Err(Service(404));
    }
    if db.rounds[t].status != Adjudicating {
      return Err(Service(409));
    }
    var es := Entries(db.grades, db.reviews, t);
    if !(exists e <- es :: e.id == delivered) {
      return Err(Service(422));
    }
    EntryIds(db.grades, db.reviews, t);
    ghost var start := db.Snapshot();
    for i := 0 to |es|
      invariant Linked(db.Snapshot()) && OnlyVerdicts(start, db.Snapshot())
      invariant ResolveAll(cfg, start, now, es, delivered) == ResolveAll(cfg, db.Snapshot(), now, es[i..], delivered)
    {
      assert es[i..][0] == es[i] && es[i..][1..] == es[i + 1..];
      var turn := ResolveGrade(db, cfg, now, es[i].id, delivered);
      if turn.Err? {
        return turn;
      }
    }
    db.tasks := db.tasks[t := db.tasks[t].(status := Approved)];
    db.rounds := db.rounds[t := db.rounds[t].(status := Adjudicated, delivered := Some(delivered))];
    return Ok(());
  }
}
