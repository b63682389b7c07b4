/** panelist/services/payouts.py: one payout a grade, withheld while the expert is paused, batched into periods. */
module Payouts {
  import opened Wrappers
  import opened Model
  import opened Tables
  import opened Rounding

  /** Expert override, then the card for the tier and task type, then the tier's default card. */
  function RateFor(cards: map<(Tier, string), int>, expert: Expert, kind: string): (r: Result<int>) {
    if expert.rate.Some? then Ok(expert.rate.value)
    else if (expert.tier, kind) in cards then Ok(cards[(expert.tier, kind)])
    else if (expert.tier, "default") in cards then Ok(cards[(expert.tier, "default")])
    else Err(Service(422))
  }

  /** The share of a rate before rounding. */
  function Exact(rate: int, fraction: real): (x: real) {
    rate as real * fraction
  }

  function NewPayout(s: State, g: GradeId, rate: int, fraction: real): (p: Payout)
    requires g < |s.grades| && s.grades[g].task < |s.tasks| && s.grades[g].expert < |s.experts|
  {
    var grade := s.grades[g];
    var expert, task := s.experts[grade.expert], s.tasks[grade.task];
    Payout(grade.expert, grade.task, g, expert.tier, task.kind, RoundHalfEven(Exact(rate, fraction)),
           if expert.status == Paused then Withheld else Pending, None)
  }

  function CreateForGrade(s: State, g: GradeId, fraction: real): (r: Result<State>)
    requires g < |s.grades| && s.grades[g].task < |s.tasks| && s.grades[g].expert < |s.experts|
    ensures r.Ok? ==> r.value == s.(payouts := r.value.payouts)
  {
    if HasPayout(s.payouts, g) then Ok(s) else
      var rate :- RateFor(s.cards, s.experts[s.grades[g].expert], s.tasks[s.grades[g].task].kind);
      Ok(s.(payouts := s.payouts + [NewPayout(s, g, rate, fraction)]))
  }

  method CreatePayout(db: Session, g: GradeId, fraction: real) returns (r: Result<()>)
    requires g < |db.grades| && db.grades[g].task < |db.tasks| && db.grades[g].expert < |db.experts|
    modifies db
    ensures match CreateForGrade(old(db.Snapshot()), g, fraction)
            case Ok(s) => r.Ok? && db.Snapshot() == s
            case Err(e) => r == Err(e)
  {
    if HasPayout(db.payouts, g) {
      return Ok(());
    }
    var grade := db.grades[g];
    var expert, task := db.experts[grade.expert], db.tasks[grade.task];
    var rate :- RateFor(db.cards, expert, task.kind);
    var amount := RoundHalfEven(Exact(rate, fraction));
    var status := if expert.status == Paused then Withheld else Pending;
    var payout := Payout(grade.expert, grade.task, g, expert.tier, task.kind, amount, status, None);
    assert payout == NewPayout(db.Snapshot(), g, rate, fraction);
    db.payouts := db.payouts + [payout];
    return Ok(());
  }

  function Restate(payouts: seq<Payout>, e: ExpertId, from: PayoutStatus, to: PayoutStatus): (r: seq<Payout>)
    ensures |r| == |payouts|
  {
    seq(|payouts|, i requires 0 <= i < |payouts| =>
      if payouts[i].expert == e && payouts[i].status == from then payouts[i].(status := to) else payouts[i])
  }

  function ReleaseWithheld(s: State, e: ExpertId): (r: State) {
    s.(payouts := Restate(s.payouts, e, Withheld, Pending))
  }

  function CloseRow(p: Payout, period: PeriodId): (r: Payout) {
    if p.status == Pending && p.period == None then p.(status := Paid, period := Some(period)) else p
  }

  function ClosedRows(payouts: seq<Payout>, period: PeriodId): (r: seq<Payout>)
    ensures |r| == |payouts|
  {
    seq(|payouts|, i requires 0 <= i < |payouts| => CloseRow(payouts[i], period))
  }

  function ClosePeriod(s: State, name: string): (r: Result<State>) {
    if name in s.periods then Err(Service(409)) else
      Ok(s.(periods := s.periods + [name], payouts := ClosedRows(s.payouts, |s.periods|)))
  }

  method Close(db: Session, name: string) returns (r: Result<PeriodId>)
    modifies db
    ensures match ClosePeriod(old(db.Snapshot()), name)
            case Ok(s) => r == Ok(old(|db.periods|)) && db.Snapshot() == s
            case Err(e) => r == Err(e)
  {
    if name in db.periods {
      return Err(Service(409));
    }
    var period := |db.periods|;
    db.periods := db.periods + [name];
    db.payouts := ClosedRows(db.payouts, period);
    return Ok(period);
  }

  // ----- totals ------------------------------------------------------------------------

  datatype Slice =
    | Everything
    | InStatus(status: PayoutStatus)
    | InPeriod(period: PeriodId)
    | Unbilled(status: PayoutStatus)
    | OfExpert(expert: ExpertId, status: PayoutStatus)

  predicate Selects(x: Slice, p: Payout) {
    match x
    case Everything => true
    case InStatus(status) => p.status == status
    case InPeriod(period) => p.period == Some(period)
    case Unbilled(status) => p.status == status && p.period == None
    case OfExpert(expert, status) => p.expert == expert && p.status == status
  }

  function Count(ps: seq<Payout>, x: Slice): (r: nat) {
    if ps == [] then 0 else Count(ps[..|ps| - 1], x) + if Selects(x, ps[|ps| - 1]) then 1 else 0
  }

  function Cents(ps: seq<Payout>, x: Slice): (r: int) {
    if ps == [] then 0 else Cents(ps[..|ps| - 1], x) + if Selects(x, ps[|ps| - 1]) then ps[|ps| - 1].amount else 0
  }

  /** The totals the ledger reports: one per status, and their sum. */
  function GrandTotal(ps: seq<Payout>): (r: int) {
    Cents(ps, InStatus(Pending)) + Cents(ps, InStatus(Withheld)) + Cents(ps, InStatus(Paid))
  }
}
