/** panelist/services/ops.py: the scheduler tick and the counts an operator reads. */
module Ops {
  import opened Wrappers
  import opened Model
  import opened Tables
  import opened Routing
  import Calibration
  import Payouts

  /** Every expert's score refreshed, in table order. */
  function UpdateAll(cfg: Settings, s: State, n: nat): (r: State)
    requires n <= |s.experts|
    ensures r == s.(experts := r.experts, moves := r.moves) && |r.experts| == |s.experts|
  {
    if n == 0 then s else Calibration.Update(cfg, UpdateAll(cfg, s, n - 1), n - 1)
  }

  function Tick(cfg: Settings, s: State, now: int): (r: State) {
    var s1 := ReclaimExpired(s, now);
    UpdateAll(cfg, s1, |s1.experts|)
  }

  function CountUncalibrated(cfg: Settings, experts: seq<Expert>): (r: nat) {
    if experts == [] then 0 else
      CountUncalibrated(cfg, experts[..|experts| - 1])
      + if experts[|experts| - 1].samples < cfg.calibrationMinSamples then 1 else 0
  }

  /** Single-grader tasks with at least two rejected grades. */
  function CountRejects(grades: seq<Grade>, reviews: seq<Review>, t: TaskId): (r: nat) {
    if reviews == [] then 0 else
      var last := reviews[|reviews| - 1];
      CountRejects(grades, reviews[..|reviews| - 1], t)
      + if last.decision == Reject && last.grade < |grades| && grades[last.grade].task == t then 1 else 0
  }

  function CountRejectedTwice(s: State, n: nat): (r: nat)
    requires n <= |s.tasks|
  {
    if n == 0 then 0 else
      var task := s.tasks[n - 1];
      CountRejectedTwice(s, n - 1)
      + if task.required == 1 && !task.golden && CountRejects(s.grades, s.reviews, n - 1) >= 2 then 1 else 0
  }

  /** What a tick returns. */
  datatype Report = Report(
    reclaimed: nat,
    scored: nat,
    changes: seq<Move>,
    uncalibrated: nat,
    unbilled: nat,
    unbilledCents: int,
    backlog: nat,
    rejectedTwice: nat,
    undelivered: nat)

  /** The counts of a report that are read from the tables the tick leaves. */
  predicate Reports(cfg: Settings, s: State, r: Report) {
    && r.scored == |s.experts| && r.uncalibrated == CountUncalibrated(cfg, s.experts)
    && r.unbilled == Payouts.Count(s.payouts, Payouts.Unbilled(Pending))
    && r.unbilledCents == Payouts.Cents(s.payouts, Payouts.Unbilled(Pending))
    && r.backlog == Backlog(s.rounds, |s.tasks|) && r.rejectedTwice == CountRejectedTwice(s, |s.tasks|)
    && r.undelivered == CountUndelivered(s, |s.tasks|)
  }

  method TickNow(db: Session, cfg: Settings, now: int) returns (r: Report)
    modifies db
    ensures db.Snapshot() == Tick(cfg, old(db.Snapshot()), now)
    ensures r.reclaimed == CountExpired(old(db.tasks), now) && db.moves == old(db.moves) + r.changes
    ensures Reports(cfg, db.Snapshot(), r)
  {
    var reclaimed := CountExpired(db.tasks, now);
    db.tasks := ReclaimRows(db.tasks, now);
    var changes, uncalibrated := ScoreExperts(db, cfg);
    var s := db.Snapshot();
    return Report(reclaimed, |s.experts|, changes, uncalibrated,
                  Payouts.Count(s.payouts, Payouts.Unbilled(Pending)),
                  Payouts.Cents(s.payouts, Payouts.Unbilled(Pending)), Backlog(s.rounds, |s.tasks|),
                  CountRejectedTwice(s, |s.tasks|), CountUndelivered(s, |s.tasks|));
  }

  lemma NoExperts(cfg: Settings)
    ensures CountUncalibrated(cfg, []) == 0
  {
  }

  lemma OneMore(cfg: Settings, experts: seq<Expert>, x: Expert)
    ensures CountUncalibrated(cfg, experts + [x])
         == CountUncalibrated(cfg, experts) + if x.samples < cfg.calibrationMinSamples then 1 else 0
  {
    assert (experts + [x])[..|experts|] == experts;
  }

  /** The tick's loop over the experts: the moves it made and how many have too few samples after it. */
  method ScoreExperts(db: Session, cfg: Settings) returns (changes: seq<Move>, uncalibrated: nat)
    modifies db
    ensures db.Snapshot() == UpdateAll(cfg, old(db.Snapshot()), |old(db.experts)|)
    ensures db.moves == old(db.moves) + changes && uncalibrated == CountUncalibrated(cfg, db.experts)
  {
    hide Calibration.Update, CountUncalibrated;
    NoExperts(cfg);
    changes, uncalibrated := [], 0;
    ghost var start := db.Snapshot();
    for e := 0 to |db.experts|
      invariant |db.experts| == |start.experts|
      invariant db.Snapshot() == UpdateAll(cfg, start, e)
      invariant db.moves == start.moves + changes
      invariant uncalibrated == CountUncalibrated(cfg, db.experts[..e])
    {
      ghost var done := db.experts[..e];
      var before := |db.moves|;
      ghost var earlier := db.moves;
      var change := Calibration.UpdateExpert(db, cfg, e);
      assert UpdateAll(cfg, start, e + 1) == db.Snapshot();
      assert db.moves == earlier + db.moves[before..] && (!change ==> db.moves[before..] == []);
      if change {
        changes := changes + db.moves[before..];
        assert db.moves == start.moves + changes;
      }
      if db.experts[e].samples < cfg.calibrationMinSamples {
        uncalibrated := uncalibrated + 1;
      }
      OneMore(cfg, done, db.experts[e]);
      assert db.experts[..e + 1] == done + [db.experts[e]];
    }
    assert db.experts[..|db.experts|] == db.experts;
  }

  function CountStatus(tasks: seq<Task>, status: TaskStatus): (r: nat) {
    if tasks == [] then 0 else
      CountStatus(tasks[..|tasks| - 1], status) + if tasks[|tasks| - 1].status == status then 1 else 0
  }

  /** Rounds waiting for an adjudicator, over the first n tasks. */
  function Backlog(rounds: map<TaskId, Round>, n: nat): (r: nat) {
    if n == 0 then 0 else
      Backlog(rounds, n - 1) + if n - 1 in rounds && rounds[n - 1].status == Adjudicating then 1 else 0
  }

  predicate ApprovedRegular(task: Task) {
    task.status == Approved && !task.golden
  }

  /** An approved task with a round whose selected grade is not approved. */
  predicate Undelivered(s: State, t: TaskId)
    requires t < |s.tasks|
  {
    && ApprovedRegular(s.tasks[t])
    && t in s.rounds
    && (s.rounds[t].delivered.None? || DecisionOf(s.reviews, s.rounds[t].delivered.value) != Some(Approve))
  }

  function CountUndelivered(s: State, n: nat): (r: nat)
    requires n <= |s.tasks|
  {
    if n == 0 then 0 else CountUndelivered(s, n - 1) + if Undelivered(s, n - 1) then 1 else 0
  }

  function CountApproved(tasks: seq<Task>, n: nat): (r: nat)
    requires n <= |tasks|
  {
    if n == 0 then 0 else CountApproved(tasks, n - 1) + if ApprovedRegular(tasks[n - 1]) then 1 else 0
  }
}
