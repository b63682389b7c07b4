/** panelist/routers/experts.py: the status change that reinstates an expert. */
module Experts {
  import opened Wrappers
  import opened Model
  import Payouts

  function SetStatus(s: State, e: ExpertId, status: ExpertStatus): (r: Result<State>) {
    if e >= |s.experts| then Err(Service(404)) else
      var s1 := s.(experts := s.experts[e := s.experts[e].(status := status)]);
      Ok(if s.experts[e].status == Paused && status == Active then Payouts.ReleaseWithheld(s1, e) else s1)
  }

  method SetExpertStatus(db: Session, e: ExpertId, status: ExpertStatus) returns (r: Result<()>)
    modifies db
    ensures match SetStatus(old(db.Snapshot()), e, status)
            case Ok(s) => r.Ok? && db.Snapshot() == s
            case Err(error) => r == Err(error)
  {
    if e >= |db.experts| {
      return Err(Service(404));
    }
    var previous := db.experts[e].status;
    db.experts := db.experts[e := db.experts[e].(status := status)];
    if previous == Paused && status == Active {
      db.payouts := Payouts.Restate(db.payouts, e, Withheld, Pending);
    }
    return Ok(());
  }
}
