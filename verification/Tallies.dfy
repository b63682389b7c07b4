/** What the counts and the status and period requests mean: how many rows are such, and which rows change how. */
module Tallies {
  import opened Wrappers
  import opened Model
  import opened Tables
  import Claims
  import Experts
  import Ops
  import Payouts
  import Routing
  import Rubrics

  /** How many rows satisfy p. */
  ghost function HowMany<T>(xs: seq<T>, p: T -> bool): (r: nat) {
    |set i | 0 <= i < |xs| && p(xs[i])|
  }

  lemma OneMore<T>(xs: seq<T>, p: T -> bool)
    ensures HowMany(xs, p)
         == if xs == [] then 0 else HowMany(xs[..|xs| - 1], p) + if p(xs[|xs| - 1]) then 1 else 0
  {
    var all := set i | 0 <= i < |xs| && p(xs[i]);
    if xs == [] {
      assert all == {};
    } else {
      var front, n := xs[..|xs| - 1], |xs| - 1;
      var few := set i | 0 <= i < |front| && p(front[i]);
      if p(xs[n]) {
        assert all == few + {n};
      } else {
        assert all == few;
      }
    }
  }

  /** How many of the numbers below n satisfy p. */
  ghost function HowManyBelow(n: nat, p: nat -> bool): (r: nat) {
    |set i: nat | i < n && p(i)|
  }

  lemma OneFurther(n: nat, p: nat -> bool)
    ensures HowManyBelow(n, p) == if n == 0 then 0 else HowManyBelow(n - 1, p) + if p(n - 1) then 1 else 0
  {
    if n == 0 {
      assert (set i: nat | i < 0 && p(i)) == {};
    } else if p(n - 1) {
      assert (set i: nat | i < n && p(i)) == (set i: nat | i < n - 1 && p(i)) + {n - 1};
    } else {
      assert (set i: nat | i < n && p(i)) == (set i: nat | i < n - 1 && p(i));
    }
  }

  // ----- the tick -----------------------------------------------------------------------------------------

  ghost function RunOut(now: int): (p: Task -> bool) {
    (task: Task) => Claims.LeaseOver(task, now)
  }

  /** The leases a tick takes back: those that have run out. */
  lemma {:induction false} ExpiredCounted(tasks: seq<Task>, now: int)
    ensures Routing.CountExpired(tasks, now) == HowMany(tasks, RunOut(now))
  {
    hide HowMany;
    OneMore(tasks, RunOut(now));
    if tasks != [] {
      ExpiredCounted(tasks[..|tasks| - 1], now);
    }
  }

  ghost function TooFew(min: nat): (p: Expert -> bool) {
    (x: Expert) => x.samples < min
  }

  /** Experts with fewer signals than a tier change takes. */
  lemma {:induction false} UncalibratedCounted(cfg: Settings, experts: seq<Expert>)
    ensures Ops.CountUncalibrated(cfg, experts) == HowMany(experts, TooFew(cfg.calibrationMinSamples))
  {
    hide HowMany;
    OneMore(experts, TooFew(cfg.calibrationMinSamples));
    if experts != [] {
      UncalibratedCounted(cfg, experts[..|experts| - 1]);
    }
  }

  /** The review rejects a grade of the task. */
  ghost function Rejects(grades: seq<Grade>, t: TaskId): (p: Review -> bool) {
    (r: Review) => r.decision == Reject && r.grade < |grades| && grades[r.grade].task == t
  }

  lemma {:induction false} RejectsCounted(grades: seq<Grade>, reviews: seq<Review>, t: TaskId)
    ensures Ops.CountRejects(grades, reviews, t) == HowMany(reviews, Rejects(grades, t))
  {
    hide HowMany;
    OneMore(reviews, Rejects(grades, t));
    if reviews != [] {
      RejectsCounted(grades, reviews[..|reviews| - 1], t);
    }
  }

  lemma TwoOfThem<T>(xs: seq<T>, p: T -> bool)
    ensures HowMany(xs, p) >= 2 <==> exists i, j :: 0 <= i < j < |xs| && p(xs[i]) && p(xs[j])
  {
    var all := set i | 0 <= i < |xs| && p(xs[i]);
    if |all| >= 2 {
      var i :| i in all;
      assert |all - {i}| >= 1;
      var j :| j in all - {i};
      assert i < j || j < i;
    }
    if i, j :| 0 <= i < j < |xs| && p(xs[i]) && p(xs[j]) {
      assert all == {i, j} + (all - {i, j});
    }
  }

  /** A regular single-grader task two of whose grades were rejected. */
  ghost function RejectedTwice(s: State): (p: TaskId -> bool) {
    (t: TaskId) =>
      && t < |s.tasks| && !s.tasks[t].golden && s.tasks[t].required == 1
      && var rejects := Rejects(s.grades, t);
         exists i, j :: 0 <= i < j < |s.reviews| && rejects(s.reviews[i]) && rejects(s.reviews[j])
  }

  lemma {:induction false} RejectedTwiceCounted(s: State, n: nat)
    requires n <= |s.tasks|
    ensures Ops.CountRejectedTwice(s, n) == HowManyBelow(n, RejectedTwice(s))
  {
    hide HowMany, HowManyBelow, Rejects;
    OneFurther(n, RejectedTwice(s));
    if n > 0 {
      RejectedTwiceCounted(s, n - 1);
      RejectsCounted(s.grades, s.reviews, n - 1);
      TwoOfThem(s.reviews, Rejects(s.grades, n - 1));
    }
  }

  /** An approved regular task whose round has picked no grade with an approving review. */
  ghost function AwaitsDelivery(s: State): (p: TaskId -> bool) {
    (t: TaskId) =>
      && t < |s.tasks| && s.tasks[t].status == Approved && !s.tasks[t].golden && t in s.rounds
      && (s.rounds[t].delivered == None || DecisionOf(s.reviews, s.rounds[t].delivered.value) != Some(Approve))
  }

  lemma {:induction false} UndeliveredCounted(s: State, n: nat)
    requires n <= |s.tasks|
    ensures Ops.CountUndelivered(s, n) == HowManyBelow(n, AwaitsDelivery(s))
  {
    hide HowManyBelow, AwaitsDelivery, Ops.Undelivered;
    OneFurther(n, AwaitsDelivery(s));
    if n > 0 {
      UndeliveredCounted(s, n - 1);
      UndeliveredAwaits(s, n - 1);
    }
  }

  lemma UndeliveredAwaits(s: State, t: TaskId)
    requires t < |s.tasks|
    ensures AwaitsDelivery(s)(t) <==> Ops.Undelivered(s, t)
  {
  }

  ghost function Unsettled(rounds: map<TaskId, Round>): (p: TaskId -> bool) {
    (t: TaskId) => t in rounds && rounds[t].status == Adjudicating
  }

  /** Rounds an adjudicator has to settle. */
  lemma {:induction false} BacklogCounted(rounds: map<TaskId, Round>, n: nat)
    ensures Ops.Backlog(rounds, n) == HowManyBelow(n, Unsettled(rounds))
  {
    hide HowManyBelow;
    OneFurther(n, Unsettled(rounds));
    if n > 0 {
      BacklogCounted(rounds, n - 1);
    }
  }

  // ----- a new rubric version -----------------------------------------------------------------------------

  ghost function Open(v: RubricId): (p: Task -> bool) {
    (task: Task) => task.rubric == v && task.status in {Queued, Assigned}
  }

  ghost function Untouched(v: RubricId): (p: Task -> bool) {
    (task: Task) => task.rubric == v && task.status == Queued && task.received == 0
  }

  /** Tasks on the version that are queued or assigned, and those in the queue that nobody has graded. */
  lemma {:induction false} VersionCounted(tasks: seq<Task>, v: RubricId)
    ensures Rubrics.CountOpen(tasks, v) == HowMany(tasks, Open(v))
    ensures Rubrics.CountUntouched(tasks, v) == HowMany(tasks, Untouched(v))
  {
    hide HowMany;
    OneMore(tasks, Open(v));
    OneMore(tasks, Untouched(v));
    if tasks != [] {
      VersionCounted(tasks[..|tasks| - 1], v);
    }
  }

  // ----- payouts ------------------------------------------------------------------------------------------

  ghost function In(x: Payouts.Slice): (f: Payout -> bool) {
    match x
    case Everything => (p: Payout) => true
    case InStatus(status) => (p: Payout) => p.status == status
    case InPeriod(period) => (p: Payout) => p.period == Some(period)
    case Unbilled(status) => (p: Payout) => p.status == status && p.period == None
    case OfExpert(e, status) => (p: Payout) => p.expert == e && p.status == status
  }

  /** A ledger count is of the payouts in that status, period or both, or of that expert in that status. */
  lemma {:induction false} PayoutsCounted(ps: seq<Payout>, x: Payouts.Slice)
    ensures Payouts.Count(ps, x) == HowMany(ps, In(x))
  {
    hide HowMany;
    OneMore(ps, In(x));
    if ps != [] {
      PayoutsCounted(ps[..|ps| - 1], x);
    }
  }

  /** A total grows by the amount of every payout it counts, and by nothing else. */
  lemma CentsOfOne(ps: seq<Payout>, p: Payout, x: Payouts.Slice)
    ensures Payouts.Cents(ps + [p], x) == Payouts.Cents(ps, x) + if In(x)(p) then p.amount else 0
    ensures Payouts.Cents([], x) == 0
  {
    assert (ps + [p])[..|ps|] == ps;
  }

  // ----- requests -----------------------------------------------------------------------------------------

  /** Reinstating a paused expert releases what was withheld from them; any other change leaves the payouts alone. */
  lemma StatusWrites(s: State, e: ExpertId, status: ExpertStatus)
    ensures var r := Experts.SetStatus(s, e, status);
            if e >= |s.experts| then r == Err(Service(404))
            else
              && r.Ok? && r.value == s.(experts := r.value.experts, payouts := r.value.payouts)
              && r.value.experts == s.experts[e := s.experts[e].(status := status)]
              && |r.value.payouts| == |s.payouts|
              && forall i | 0 <= i < |s.payouts| ::
                   r.value.payouts[i]
                   == if s.experts[e].status == Paused && status == Active
                         && s.payouts[i].expert == e && s.payouts[i].status == Withheld
                      then s.payouts[i].(status := Pending) else s.payouts[i]
  {
  }

  /** A period closes under a new name and pays whatever is pending and in no period. */
  lemma CloseWrites(s: State, name: string)
    ensures var r := Payouts.ClosePeriod(s, name);
            if exists k :: 0 <= k < |s.periods| && s.periods[k] == name then r == Err(Service(409))
            else
              && r.Ok? && r.value == s.(periods := s.periods + [name], payouts := r.value.payouts)
              && |r.value.payouts| == |s.payouts|
              && forall i | 0 <= i < |s.payouts| ::
                   r.value.payouts[i]
                   == if s.payouts[i].status == Pending && s.payouts[i].period == None
                      then s.payouts[i].(status := Paid, period := Some(|s.periods|)) else s.payouts[i]
  {
  }
}
