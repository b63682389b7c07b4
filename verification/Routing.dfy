/** panelist/services/routing.py: who may take which task, in which order, and the leases. */
module Routing {
  import opened Wrappers
  import opened Model
  import opened Tables

  /** Queued, tag overlap, tier gate, not graded before by this expert. */
  predicate Eligible(s: State, e: ExpertId, t: TaskId)
    requires e < |s.experts| && t < |s.tasks|
  {
    var expert, task := s.experts[e], s.tasks[t];
    && task.status == Queued
    && task.tags * expert.tags != {}
    && Rank(task.minTier) <= Rank(expert.tier)
    && !HasGraded(s.grades, t, e)
  }

  predicate DeadlineBefore(a: Option<int>, b: Option<int>) {
    a.Some? && (b.None? || a.value < b.value)
  }

  /** priority descending, deadline ascending with nulls last, sequence number ascending. */
  predicate Precedes(tasks: seq<Task>, i: TaskId, j: TaskId)
    requires i < |tasks| && j < |tasks|
  {
    var a, b := tasks[i], tasks[j];
    a.priority > b.priority
    || (a.priority == b.priority &&
        (DeadlineBefore(a.deadline, b.deadline) || (a.deadline == b.deadline && i < j)))
  }

  function PickAmong(s: State, e: ExpertId, golden: bool, n: nat): (r: Option<TaskId>)
    requires e < |s.experts| && n <= |s.tasks|
    ensures r.Some? ==> r.value < n && Eligible(s, e, r.value) && s.tasks[r.value].golden == golden
  {
    if n == 0 then None else
      var best, t := PickAmong(s, e, golden, n - 1), n - 1;
      if Eligible(s, e, t) && s.tasks[t].golden == golden && (best == None || Precedes(s.tasks, t, best.value))
      then Some(t) else best
  }

  /** The first eligible task of the wanted kind in queue order. */
  function Pick(s: State, e: ExpertId, golden: bool): (r: Option<TaskId>)
    requires e < |s.experts|
    ensures r.Some? ==> r.value < |s.tasks| && Eligible(s, e, r.value) && s.tasks[r.value].golden == golden
  {
    PickAmong(s, e, golden, |s.tasks|)
  }

  function Unleased(task: Task): (r: Task) {
    task.(holder := None, assignedAt := None, lease := None)
  }

  predicate Expired(task: Task, now: int) {
    task.status == Assigned && task.lease.Some? && task.lease.value < now
  }

  function ReclaimRow(task: Task, now: int): (r: Task) {
    if Expired(task, now)
    then Unleased(task).(status := Queued, reclaims := task.reclaims + 1, history := task.history + [Reclaimed])
    else task
  }

  function ReclaimRows(tasks: seq<Task>, now: int): (r: seq<Task>)
    ensures |r| == |tasks|
  {
    seq(|tasks|, i requires 0 <= i < |tasks| => ReclaimRow(tasks[i], now))
  }

  /** How many rows the reclaim updates. */
  function CountExpired(tasks: seq<Task>, now: int): (r: nat) {
    if tasks == [] then 0 else
      CountExpired(tasks[..|tasks| - 1], now) + if Expired(tasks[|tasks| - 1], now) then 1 else 0
  }

  /** One UPDATE over the task table. */
  function ReclaimExpired(s: State, now: int): (r: State)
    ensures r == s.(tasks := r.tasks) && |r.tasks| == |s.tasks|
  {
    s.(tasks := ReclaimRows(s.tasks, now))
  }

  function AssignRow(cfg: Settings, task: Task, now: int, e: ExpertId): (r: Task) {
    task.(status := Assigned, pinned := Some(task.rubric), holder := Some(e), assignedAt := Some(now),
          lease := Some(now + cfg.leaseSeconds), history := task.history + [Granted(e)])
  }

  function Assign(cfg: Settings, s: State, now: int, t: TaskId, e: ExpertId): (r: State)
    requires e < |s.experts| && t < |s.tasks|
  {
    s.(tasks := s.tasks[t := AssignRow(cfg, s.tasks[t], now, e)],
       experts := s.experts[e := s.experts[e].(served := s.experts[e].served + 1)],
       served := s.served + [(t, e)])
  }

  method AssignTask(db: Session, cfg: Settings, now: int, t: TaskId, e: ExpertId)
    requires e < |db.experts| && t < |db.tasks|
    modifies db
    ensures db.Snapshot() == Assign(cfg, old(db.Snapshot()), now, t, e)
  {
    var task := db.tasks[t];
    task := task.(status := Assigned);
    task := task.(pinned := Some(task.rubric));
    task := task.(holder := Some(e), assignedAt := Some(now), lease := Some(now + cfg.leaseSeconds));
    task := task.(history := task.history + [Granted(e)]);
    db.tasks := db.tasks[t := task];
    db.experts := db.experts[e := db.experts[e].(served := db.experts[e].served + 1)];
    db.served := db.served + [(t, e)];
  }

  /** The chosen task: a golden one when this serve prefers a check and one is eligible, else a regular one. */
  function Choice(cfg: Settings, s: State, e: ExpertId): (r: Option<TaskId>)
    requires e < |s.experts|
    ensures r.Some? ==> r.value < |s.tasks| && Eligible(s, e, r.value)
  {
    var golden := if cfg.prefersCheck(e, s.experts[e].served + 1) then Pick(s, e, true) else None;
    if golden.Some? then golden else Pick(s, e, false)
  }

  function ClaimNext(cfg: Settings, s: State, now: int, e: ExpertId): (r: Result<(State, Option<TaskId>)>)
    requires e < |s.experts|
  {
    if s.experts[e].status != Active then Err(Service(423)) else
      var s1 := ReclaimExpired(s, now);
      var pick := Choice(cfg, s1, e);
      if pick == None then Ok((s1, None)) else Ok((Assign(cfg, s1, now, pick.value, e), pick))
  }

  method ClaimNextTask(db: Session, cfg: Settings, now: int, e: ExpertId) returns (r: Result<Option<TaskId>>)
    requires e < |db.experts|
    modifies db
    ensures match ClaimNext(cfg, old(db.Snapshot()), now, e)
            case Ok((s, task)) => r == Ok(task) && db.Snapshot() == s
            case Err(error) => r == Err(error)
  {
    if db.experts[e].status != Active {
      return Err(Service(423));
    }
    db.tasks := ReclaimRows(db.tasks, now);
    var task: Option<TaskId> := None;
    if cfg.prefersCheck(e, db.experts[e].served + 1) {
      task := Pick(db.Snapshot(), e, true);
    }
    if task == None {
      task := Pick(db.Snapshot(), e, false);
    }
    if task == None {
      return Ok(None);
    }
    AssignTask(db, cfg, now, task.value, e);
    return Ok(task);
  }

  /** Claims one named task; unlike the queue it does not ask whether the expert has graded the task before. */
  function ClaimById(cfg: Settings, s: State, now: int, e: ExpertId, t: TaskId): (r: Result<State>)
    requires e < |s.experts|
  {
    if s.experts[e].status != Active then Err(Service(423)) else
      var s1 := ReclaimExpired(s, now);
      if t >= |s1.tasks| then Err(Service(404))
      else if s1.tasks[t].status != Queued then Err(Service(409))
      else if s1.tasks[t].tags * s1.experts[e].tags == {} then Err(Service(403))
      else if Rank(s1.tasks[t].minTier) > Rank(s1.experts[e].tier) then Err(Service(403))
      else Ok(Assign(cfg, s1, now, t, e))
  }

  method ClaimTaskById(db: Session, cfg: Settings, now: int, e: ExpertId, t: TaskId) returns (r: Result<()>)
    requires e < |db.experts|
    modifies db
    ensures match ClaimById(cfg, old(db.Snapshot()), now, e, t)
            case Ok(s) => r.Ok? && db.Snapshot() == s
            case Err(error) => r == Err(error)
  {
    if db.experts[e].status != Active {
      return Err(Service(423));
    }
    db.tasks := ReclaimRows(db.tasks, now);
    if t >= |db.tasks| {
      return Err(Service(404));
    }
    var task, expert := db.tasks[t], db.experts[e];
    if task.status != Queued {
      return Err(Service(409));
    }
    if task.tags * expert.tags == {} || Rank(task.minTier) > Rank(expert.tier) {
      return Err(Service(403));
    }
    AssignTask(db, cfg, now, t, e);
    return Ok(());
  }

  function Release(s: State, e: ExpertId, t: TaskId): (r: Result<State>) {
    if t >= |s.tasks| then Err(Service(404))
    else if s.tasks[t].status != Assigned || s.tasks[t].holder != Some(e) then Err(Service(409))
    else
      var task := s.tasks[t];
      Ok(s.(tasks := s.tasks[t := Unleased(task).(status := Queued, history := task.history + [Released(e)])]))
  }

  method ReleaseTask(db: Session, e: ExpertId, t: TaskId) returns (r: Result<()>)
    modifies db
    ensures match Release(old(db.Snapshot()), e, t)
            case Ok(s) => r.Ok? && db.Snapshot() == s
            case Err(error) => r == Err(error)
  {
    if t >= |db.tasks| {
      return Err(Service(404));
    }
    var task := db.tasks[t];
    if task.status != Assigned || task.holder != Some(e) {
      return Err(Service(409));
    }
    task := task.(status := Queued);
    task := task.(holder := None, assignedAt := None, lease := None);
    task := task.(history := task.history + [Released(e)]);
    db.tasks := db.tasks[t := task];
    return Ok(());
  }
}
