/** What the audit trail of leases says: who was served what, and how often. */
module Leases {
  import opened Wrappers
  import opened Model
  import opened Scores
  import opened Tables
  import opened TaskInvariant
  import opened Invariant
  import Routing
  import Grading
  import Calibration
  import Consensus
  import Ops
  import Ledger
  import Service

  // ----- counting one history --------------------------------------------------------------

  function Grants(h: seq<LeaseEvent>): (r: nat) {
    if h == [] then 0 else Grants(h[..|h| - 1]) + if h[|h| - 1].Granted? then 1 else 0
  }

  function Releases(h: seq<LeaseEvent>): (r: nat) {
    if h == [] then 0 else Releases(h[..|h| - 1]) + if h[|h| - 1].Released? then 1 else 0
  }

  /** Every assignment ended in a release, a reclaim or a grade, or is the one that still holds. */
  lemma {:induction false} GrantsAccounted(h: seq<LeaseEvent>)
    requires Replay(h).Some?
    ensures Grants(h) == Releases(h) + Reclaims(h) + |Graders(h)| + if Replay(h).value.Some? then 1 else 0
  {
    if h != [] {
      GrantsAccounted(h[..|h| - 1]);
    }
  }

  /** A grade directly follows the assignment of the task to its author: nothing happened to the lease in between. */
  lemma {:induction false} GradeFollowsGrant(h: seq<LeaseEvent>, i: nat)
    requires Replay(h).Some? && i < |h| && h[i].Graded?
    ensures 0 < i && h[i - 1] == Granted(h[i].expert)
  {
    if i < |h| - 1 {
      GradeFollowsGrant(h[..|h| - 1], i);
    } else {
      var before := h[..i];
      assert Replay(before) == Some(Some(h[i].expert));
      assert before[|before| - 1] == h[i - 1];
    }
  }

  // ----- counting the served rows --------------------------------------------------------------

  function ServedTo(rows: seq<(TaskId, ExpertId)>, e: ExpertId): (r: nat) {
    if rows == [] then 0 else ServedTo(rows[..|rows| - 1], e) + if rows[|rows| - 1].1 == e then 1 else 0
  }

  function ServedFrom(rows: seq<(TaskId, ExpertId)>, t: TaskId): (r: nat) {
    if rows == [] then 0 else ServedFrom(rows[..|rows| - 1], t) + if rows[|rows| - 1].0 == t then 1 else 0
  }

  function SumServed(experts: seq<Expert>): (r: nat) {
    if experts == [] then 0 else SumServed(experts[..|experts| - 1]) + experts[|experts| - 1].served
  }

  function SumGrants(tasks: seq<Task>): (r: nat) {
    if tasks == [] then 0 else SumGrants(tasks[..|tasks| - 1]) + Grants(tasks[|tasks| - 1].history)
  }

  /** Every serve is counted once with its expert and once with its task. */
  ghost predicate LeasesOk(s: State) {
    && (forall i | 0 <= i < |s.served| :: s.served[i].0 < |s.tasks| && s.served[i].1 < |s.experts|)
    && (forall e | 0 <= e < |s.experts| :: s.experts[e].served == ServedTo(s.served, e))
    && (forall t | 0 <= t < |s.tasks| :: Grants(s.tasks[t].history) == ServedFrom(s.served, t))
  }

  lemma {:induction false} NobodyServed(rows: seq<(TaskId, ExpertId)>, t: TaskId, e: ExpertId)
    ensures (forall i | 0 <= i < |rows| :: rows[i].0 != t) ==> ServedFrom(rows, t) == 0
    ensures (forall i | 0 <= i < |rows| :: rows[i].1 != e) ==> ServedTo(rows, e) == 0
  {
    if rows != [] {
      NobodyServed(rows[..|rows| - 1], t, e);
    }
  }

  lemma ServedAppend(rows: seq<(TaskId, ExpertId)>, row: (TaskId, ExpertId), t: TaskId, e: ExpertId)
    ensures ServedTo(rows + [row], e) == ServedTo(rows, e) + if row.1 == e then 1 else 0
    ensures ServedFrom(rows + [row], t) == ServedFrom(rows, t) + if row.0 == t then 1 else 0
  {
    assert (rows + [row])[..|rows|] == rows;
  }

  lemma GrantsAppend(h: seq<LeaseEvent>, ev: LeaseEvent)
    ensures Grants(h + [ev]) == Grants(h) + if ev.Granted? then 1 else 0
  {
    assert (h + [ev])[..|h|] == h;
  }

  // ----- what each request does to the trail ------------------------------------------------------

  /** Nobody is served: the trail of each task grows by at most one event, which is not an assignment. */
  ghost predicate NoServe(s: State, s': State) {
    && s'.served == s.served && |s.experts| <= |s'.experts| && |s.tasks| <= |s'.tasks|
    && (forall e | 0 <= e < |s.experts| :: s'.experts[e].served == s.experts[e].served)
    && (forall e | |s.experts| <= e < |s'.experts| :: s'.experts[e].served == 0)
    && (forall t | 0 <= t < |s.tasks| :: TrailGrows(s.tasks[t], s'.tasks[t]))
    && (forall t | |s.tasks| <= t < |s'.tasks| :: s'.tasks[t].history == [])
  }

  ghost predicate TrailGrows(task: Task, task': Task) {
    task'.history == task.history || exists ev :: task'.history == task.history + [ev] && !ev.Granted?
  }

  lemma NoServeKeeps(s: State, s': State)
    requires LeasesOk(s) && NoServe(s, s')
    ensures LeasesOk(s')
  {
    forall e | 0 <= e < |s'.experts| ensures s'.experts[e].served == ServedTo(s'.served, e) {
      if e >= |s.experts| {
        NobodyServed(s.served, |s.tasks|, e);
      }
    }
    forall t | 0 <= t < |s'.tasks| ensures Grants(s'.tasks[t].history) == ServedFrom(s'.served, t) {
      if t >= |s.tasks| {
        NobodyServed(s.served, t, |s.experts|);
      } else {
        assert TrailGrows(s.tasks[t], s'.tasks[t]);
        if s'.tasks[t].history != s.tasks[t].history {
          var ev :| s'.tasks[t].history == s.tasks[t].history + [ev] && !ev.Granted?;
          GrantsAppend(s.tasks[t].history, ev);
        }
      }
    }
  }

  lemma AssignServes(cfg: Settings, s: State, now: int, t: TaskId, e: ExpertId)
    requires LeasesOk(s) && t < |s.tasks| && e < |s.experts|
    ensures LeasesOk(Routing.Assign(cfg, s, now, t, e))
  {
    var s' := Routing.Assign(cfg, s, now, t, e);
    forall x | 0 <= x < |s'.experts| ensures s'.experts[x].served == ServedTo(s'.served, x) {
      ServedAppend(s.served, (t, e), t, x);
    }
    forall u | 0 <= u < |s'.tasks| ensures Grants(s'.tasks[u].history) == ServedFrom(s'.served, u) {
      ServedAppend(s.served, (t, e), u, e);
      GrantsAppend(s.tasks[u].history, Granted(e));
    }
  }

  lemma ReclaimNoServe(s: State, now: int)
    ensures NoServe(s, Routing.ReclaimExpired(s, now))
  {
    forall t | 0 <= t < |s.tasks| ensures TrailGrows(s.tasks[t], Routing.ReclaimRow(s.tasks[t], now)) {
      if Routing.Expired(s.tasks[t], now) {
        assert Routing.ReclaimRow(s.tasks[t], now).history == s.tasks[t].history + [Reclaimed] && !Reclaimed.Granted?;
      }
    }
  }

  lemma {:induction false} TickServed(cfg: Settings, s: State, n: nat)
    requires n <= |s.experts|
    ensures var r := Ops.UpdateAll(cfg, s, n);
            && r.served == s.served && r.tasks == s.tasks
            && forall x | 0 <= x < |s.experts| :: r.experts[x].served == s.experts[x].served
  {
    hide Calibration.SignalFlags;
    if n > 0 {
      TickServed(cfg, s, n - 1);
    }
  }

  lemma RouteLeases(cfg: Settings, s: State, s': State, now: int, ev: Service.Event)
    requires Linked(s) && LeasesOk(s) && Routes(ev) && Service.Apply(cfg, s, now, ev) == Ok(s')
    ensures LeasesOk(s')
  {
    hide Calibration.SignalFlags, Routing.Eligible, Routing.PickAmong, LeasesOk, Ops.UpdateAll;
    var s1 := Routing.ReclaimExpired(s, now);
    ReclaimNoServe(s, now);
    NoServeKeeps(s, s1);
    match ev {
      case ClaimNext(e) =>
        var pick := Routing.Choice(cfg, s1, e);
        if pick.Some? {
          AssignServes(cfg, s1, now, pick.value, e);
        }
      case ClaimById(e, t) =>
        AssignServes(cfg, s1, now, t, e);
      case Release(e, t) =>
        assert TrailGrows(s.tasks[t], s'.tasks[t]) by {
          assert s'.tasks[t].history == s.tasks[t].history + [Released(e)];
        }
        NoServeKeeps(s, s');
      case Reclaim =>
      case Tick =>
        TickServed(cfg, s1, |s1.experts|);
        NoServeKeeps(s1, s');
    }
  }

  lemma CreateLeases(cfg: Settings, s: State, s': State, now: int, ev: Service.Event)
    requires Linked(s) && LeasesOk(s) && Creates(ev) && Service.Apply(cfg, s, now, ev) == Ok(s')
    ensures LeasesOk(s')
  {
    hide LeasesOk;
    NoServeKeeps(s, s');
  }

  lemma ManageLeases(cfg: Settings, s: State, s': State, now: int, ev: Service.Event)
    requires Linked(s) && LeasesOk(s) && (ev.SetStatus? || ev.ClosePeriod? || ev.Export?)
    requires Service.Apply(cfg, s, now, ev) == Ok(s')
    ensures LeasesOk(s')
  {
    hide LeasesOk;
    NoServeKeeps(s, s');
  }

  lemma SubmitLeases(cfg: Settings, s: State, s': State, now: int, ev: Service.Event)
    requires Linked(s) && LeasesOk(s) && ev.Submit? && Service.Apply(cfg, s, now, ev) == Ok(s')
    ensures LeasesOk(s')
  {
    hide LeasesOk, Grading.Submit, Grading.ValidScores;
    var e, t := ev.expert, ev.task;
    SubmitRows(cfg, s, s', now, e, t, ev.scores, ev.given);
    Ledger.SubmitGuarded(cfg, s, s', now, e, t, ev.scores, ev.given);
    assert TrailGrows(s.tasks[t], s'.tasks[t]) by {
      assert s'.tasks[t].history == s.tasks[t].history + [Graded(e)];
    }
    NoServeKeeps(s, s');
  }

  lemma {:induction false} ResolveServed(cfg: Settings, s: State, s': State, now: int, es: seq<Entry>,
        delivered: GradeId)
    requires Linked(s) && (forall e <- es :: e.id < |s.grades|)
    requires Consensus.ResolveAll(cfg, s, now, es, delivered) == Ok(s')
    ensures |s'.experts| == |s.experts| && s'.served == s.served
    ensures forall x | 0 <= x < |s.experts| :: s'.experts[x].served == s.experts[x].served
    decreases |es|
  {
    hide Calibration.SignalFlags, DecisionOf;
    if es != [] {
      var s1 := Consensus.ResolveOne(cfg, s, now, es[0].id, delivered).value;
      ResolveServed(cfg, s1, s', now, es[1..], delivered);
    }
  }

  lemma ReviewLeases(cfg: Settings, s: State, s': State, now: int, ev: Service.Event)
    requires Linked(s) && LeasesOk(s) && ev.ReviewGrade? && Service.Apply(cfg, s, now, ev) == Ok(s')
    ensures LeasesOk(s')
  {
    hide LeasesOk, Calibration.SignalFlags, DecisionOf;
    ReviewRows(cfg, s, s', now, ev.grade, ev.decision);
    NoServeKeeps(s, s');
  }

  lemma ResolveLeases(cfg: Settings, s: State, s': State, now: int, ev: Service.Event)
    requires Linked(s) && LeasesOk(s) && ev.Resolve? && Service.Apply(cfg, s, now, ev) == Ok(s')
    ensures LeasesOk(s')
  {
    hide LeasesOk, DecisionOf, Consensus.ResolveAll;
    ResolveRows(cfg, s, s', now, ev.task, ev.delivered);
    var es := TaskEntries(s, ev.task);
    EntryIds(s.grades, s.reviews, ev.task);
    ResolveServed(cfg, s, Consensus.ResolveAll(cfg, s, now, es, ev.delivered).value, now, es, ev.delivered);
    NoServeKeeps(s, s');
  }

  lemma AcceptedLeases(cfg: Settings, s: State, s': State, now: int, ev: Service.Event)
    requires Linked(s) && LeasesOk(s) && Service.Apply(cfg, s, now, ev) == Ok(s')
    ensures LeasesOk(s')
  {
    hide LeasesOk, Service.Apply;
    if Creates(ev) {
      CreateLeases(cfg, s, s', now, ev);
    } else if Routes(ev) {
      RouteLeases(cfg, s, s', now, ev);
    } else if ev.Submit? {
      SubmitLeases(cfg, s, s', now, ev);
    } else if ev.ReviewGrade? {
      ReviewLeases(cfg, s, s', now, ev);
    } else if ev.Resolve? {
      ResolveLeases(cfg, s, s', now, ev);
    } else {
      ManageLeases(cfg, s, s', now, ev);
    }
  }

  // ----- sums over the tables ---------------------------------------------------------------------

  lemma {:induction false} ServesPerExpert(rows: seq<(TaskId, ExpertId)>, experts: seq<Expert>, n: nat)
    requires n <= |experts| && forall e | 0 <= e < n :: experts[e].served == ServedTo(rows, e)
    ensures SumServed(experts[..n]) == CountBelow(rows, n)
  {
    if n > 0 {
      ServesPerExpert(rows, experts, n - 1);
      assert experts[..n][..n - 1] == experts[..n - 1];
      CountStep(rows, n - 1);
    } else {
      CountNone(rows);
    }
  }

  /** Rows that serve one of the first n experts. */
  function CountBelow(rows: seq<(TaskId, ExpertId)>, n: nat): (r: nat) {
    if rows == [] then 0 else CountBelow(rows[..|rows| - 1], n) + if rows[|rows| - 1].1 < n then 1 else 0
  }

  lemma {:induction false} CountNone(rows: seq<(TaskId, ExpertId)>)
    ensures CountBelow(rows, 0) == 0
  {
    if rows != [] {
      CountNone(rows[..|rows| - 1]);
    }
  }

  lemma {:induction false} CountStep(rows: seq<(TaskId, ExpertId)>, e: ExpertId)
    ensures CountBelow(rows, e + 1) == CountBelow(rows, e) + ServedTo(rows, e)
  {
    if rows != [] {
      CountStep(rows[..|rows| - 1], e);
    }
  }

  lemma {:induction false} CountAll(rows: seq<(TaskId, ExpertId)>, n: nat)
    requires forall i | 0 <= i < |rows| :: rows[i].1 < n
    ensures CountBelow(rows, n) == |rows|
  {
    if rows != [] {
      CountAll(rows[..|rows| - 1], n);
    }
  }

  function Swap(rows: seq<(TaskId, ExpertId)>): (r: seq<(ExpertId, TaskId)>) {
    seq(|rows|, i requires 0 <= i < |rows| => (rows[i].1, rows[i].0))
  }

  lemma {:induction false} SwapCounts(rows: seq<(TaskId, ExpertId)>, t: TaskId)
    ensures ServedTo(Swap(rows), t) == ServedFrom(rows, t)
  {
    if rows != [] {
      SwapCounts(rows[..|rows| - 1], t);
      assert Swap(rows)[..|rows| - 1] == Swap(rows[..|rows| - 1]);
    }
  }

  lemma {:induction false} ServesPerTask(rows: seq<(TaskId, ExpertId)>, tasks: seq<Task>, n: nat)
    requires n <= |tasks| && forall t | 0 <= t < n :: Grants(tasks[t].history) == ServedFrom(rows, t)
    ensures SumGrants(tasks[..n]) == CountBelow(Swap(rows), n)
  {
    if n > 0 {
      ServesPerTask(rows, tasks, n - 1);
      assert tasks[..n][..n - 1] == tasks[..n - 1];
      CountStep(Swap(rows), n - 1);
      SwapCounts(rows, n - 1);
    } else {
      CountNone(Swap(rows));
    }
  }

  /** Summed over the tasks, the assignments are the experts' served counts summed. */
  lemma ServesBalance(s: State)
    requires LeasesOk(s)
    ensures SumGrants(s.tasks) == SumServed(s.experts) == |s.served|
  {
    assert s.experts[..|s.experts|] == s.experts && s.tasks[..|s.tasks|] == s.tasks;
    ServesPerExpert(s.served, s.experts, |s.experts|);
    ServesPerTask(s.served, s.tasks, |s.tasks|);
    CountAll(s.served, |s.experts|);
    CountAll(Swap(s.served), |s.tasks|);
  }
}
