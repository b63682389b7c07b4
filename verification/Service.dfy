/** Every request as one transaction over the tables, and runs of such requests. */
module Service {
  import opened Wrappers
  import opened Model
  import opened Tables
  import Routing
  import Grading
  import Consensus
  import Payouts
  import Rubrics
  import Delivery
  import Ops
  import Experts

  datatype TaskInput = TaskInput(
    tags: set<Tag>,
    kind: string,
    minTier: Tier,
    rubric: RubricId,
    priority: int,
    deadline: Option<int>,
    required: int,
    golden: bool,
    expected: seq<(Key, real)>)

  datatype Event =
    | CreateExpert(tags: set<Tag>, tier: Tier, rate: Option<int>)
    | CreateRubric(name: string, version: int, criteria: seq<Criterion>)
    | PutRateCard(tier: Tier, kind: string, cents: int)
    | CreateTask(input: TaskInput)
    | Publish(previous: RubricId, criteria: seq<Criterion>)
    | ClaimNext(expert: ExpertId)
    | ClaimById(expert: ExpertId, task: TaskId)
    | Release(expert: ExpertId, task: TaskId)
    | Reclaim
    | Submit(expert: ExpertId, task: TaskId, scores: ScoreSheet, given: Option<RubricId>)
    | ReviewGrade(grade: GradeId, decision: Decision)
    | Resolve(task: TaskId, delivered: GradeId)
    | SetStatus(expert: ExpertId, status: ExpertStatus)
    | ClosePeriod(name: string)
    | Tick
    | Export

  function NewTask(input: TaskInput): (t: Task) {
    Task(input.tags, input.kind, input.minTier, input.rubric, None, input.priority, input.deadline, Queued,
         input.required, 0, input.golden, input.expected, None, None, None, 0, [])
  }

  /** panelist/routers/tasks.py: no superseded rubric, expected scores on golden tasks, one to five graders. */
  function AddTask(s: State, input: TaskInput): (r: Result<State>) {
    if input.tags == {} || !(1 <= input.required <= 5) then Err(Service(422))
    else if input.rubric < |s.rubrics| && s.rubrics[input.rubric].supersededBy.Some? then Err(Service(409))
    else if input.golden && input.expected == [] then Err(Service(422))
    else if input.rubric >= |s.rubrics| then Err(Integrity)
    else Ok(s.(tasks := s.tasks + [NewTask(input)]))
  }

  function AddExpert(s: State, tags: set<Tag>, tier: Tier, rate: Option<int>): (r: Result<State>) {
    if tags == {} then Err(Service(422)) else
      Ok(s.(experts := s.experts + [Expert(tags, tier, rate, Active, 0, None, 0)]))
  }

  function AddRateCard(s: State, tier: Tier, kind: string, cents: int): (r: Result<State>) {
    if cents < 0 then Err(Service(422)) else Ok(s.(cards := s.cards[(tier, kind) := cents]))
  }

  /** What one request does to the tables, or why it is refused. */
  function Apply(cfg: Settings, s: State, now: int, ev: Event): (r: Result<State>)
    requires Linked(s)
  {
    match ev
    case CreateExpert(tags, tier, rate) => AddExpert(s, tags, tier, rate)
    case CreateRubric(name, version, criteria) => Rubrics.Create(s, name, version, criteria)
    case PutRateCard(tier, kind, cents) => AddRateCard(s, tier, kind, cents)
    case CreateTask(input) => AddTask(s, input)
    case Publish(previous, criteria) => Rubrics.Publish(s, previous, criteria)
    case ClaimNext(e) =>
      if e >= |s.experts| then Err(Service(404)) else
        var claimed :- Routing.ClaimNext(cfg, s, now, e);
        Ok(claimed.0)
    case ClaimById(e, t) =>
      if e >= |s.experts| then Err(Service(404)) else Routing.ClaimById(cfg, s, now, e, t)
    case Release(e, t) => Routing.Release(s, e, t)
    case Reclaim => Ok(Routing.ReclaimExpired(s, now))
    case Submit(e, t, scores, given) =>
      if e >= |s.experts| then Err(Service(404)) else Grading.Submit(cfg, s, now, e, t, scores, given)
    case ReviewGrade(g, decision) => Grading.ReviewGrade(cfg, s, now, g, decision)
    case Resolve(t, delivered) => Consensus.Resolve(cfg, s, now, t, delivered)
    case SetStatus(e, status) => Experts.SetStatus(s, e, status)
    case ClosePeriod(name) => Payouts.ClosePeriod(s, name)
    case Tick => Ok(Ops.Tick(cfg, s, now))
    case Export => Ok(Delivery.Export(cfg, s))
  }

  /** A request either happens in full or leaves the tables as they were. */
  function Commit(cfg: Settings, s: State, now: int, ev: Event): (r: State)
    requires Linked(s)
  {
    match Apply(cfg, s, now, ev)
    case Ok(s') => s'
    case Err(_) => s
  }

  /** The request handlers, dispatched; a refused request is rolled back. */
  method Handle(db: Session, cfg: Settings, now: int, ev: Event) returns (r: Result<()>)
    requires Linked(db.Snapshot())
    modifies db
    ensures db.Snapshot() == Commit(cfg, old(db.Snapshot()), now, ev)
    ensures r.Ok? <==> Apply(cfg, old(db.Snapshot()), now, ev).Ok?
    ensures r.Err? ==> Apply(cfg, old(db.Snapshot()), now, ev) == Err(r.error)
  {
    var before := db.Snapshot();
    match ev {
      case CreateExpert(_, _, _) => r := Add(db, cfg, now, ev);
      case CreateRubric(_, _, _) => r := Add(db, cfg, now, ev);
      case PutRateCard(_, _, _) => r := Add(db, cfg, now, ev);
      case CreateTask(_) => r := Add(db, cfg, now, ev);
      case Publish(_, _) => r := Work(db, cfg, now, ev);
      case ClaimNext(_) => r := Serve(db, cfg, now, ev);
      case ClaimById(_, _) => r := Serve(db, cfg, now, ev);
      case Release(_, _) => r := Serve(db, cfg, now, ev);
      case Reclaim => r := Serve(db, cfg, now, ev);
      case Submit(_, _, _, _) => r := Work(db, cfg, now, ev);
      case ReviewGrade(_, _) => r := Work(db, cfg, now, ev);
      case Resolve(_, _) => r := Work(db, cfg, now, ev);
      case SetStatus(_, _) => r := Manage(db, cfg, now, ev);
      case ClosePeriod(_) => r := Manage(db, cfg, now, ev);
      case Tick => r := Manage(db, cfg, now, ev);
      case Export => r := Manage(db, cfg, now, ev);
    }
    if r.Err? {
      db.Rollback(before);
    }
  }

  /** Done as the specification says, or refused with the same error and the session to be rolled back. */
  ghost predicate Follows(specified: Result<State>, after: State, r: Result<()>) {
    match specified
    case Ok(s) => r.Ok? && after == s
    case Err(e) => r == Err(e)
  }

  method Add(db: Session, cfg: Settings, now: int, ev: Event) returns (r: Result<()>)
    requires Linked(db.Snapshot())
    requires ev.CreateExpert? || ev.CreateRubric? || ev.PutRateCard? || ev.CreateTask?
    modifies db
    ensures Follows(Apply(cfg, old(db.Snapshot()), now, ev), db.Snapshot(), r)
  {
    var next := Apply(cfg, db.Snapshot(), now, ev);
    if next.Err? {
      return Err(next.error);
    }
    match ev {
      case CreateExpert(tags, tier, rate) =>
        db.experts := db.experts + [Expert(tags, tier, rate, Active, 0, None, 0)];
      case CreateRubric(name, version, criteria) =>
        db.rubrics := db.rubrics + [Rubric(name, version, criteria, None)];
      case PutRateCard(tier, kind, cents) =>
        db.cards := db.cards[(tier, kind) := cents];
      case CreateTask(input) =>
        db.tasks := db.tasks + [NewTask(input)];
    }
    return Ok(());
  }

  method Serve(db: Session, cfg: Settings, now: int, ev: Event) returns (r: Result<()>)
    requires Linked(db.Snapshot())
    requires ev.ClaimNext? || ev.ClaimById? || ev.Release? || ev.Reclaim?
    modifies db
    ensures Follows(Apply(cfg, old(db.Snapshot()), now, ev), db.Snapshot(), r)
  {
    match ev {
      case ClaimNext(e) =>
        if e >= |db.experts| {
          return Err(Service(404));
        }
        var _ :- Routing.ClaimNextTask(db, cfg, now, e);
      case ClaimById(e, t) =>
        if e >= |db.experts| {
          return Err(Service(404));
        }
        var _ :- Routing.ClaimTaskById(db, cfg, now, e, t);
      case Release(e, t) =>
        var _ :- Routing.ReleaseTask(db, e, t);
      case Reclaim =>
        db.tasks := Routing.ReclaimRows(db.tasks, now);
    }
    return Ok(());
  }

  method Work(db: Session, cfg: Settings, now: int, ev: Event) returns (r: Result<()>)
    requires Linked(db.Snapshot())
    requires ev.Publish? || ev.Submit? || ev.ReviewGrade? || ev.Resolve?
    modifies db
    ensures Follows(Apply(cfg, old(db.Snapshot()), now, ev), db.Snapshot(), r)
  {
    match ev {
      case Publish(previous, criteria) =>
        var _ :- Rubrics.PublishVersion(db, previous, criteria);
      case Submit(e, t, scores, given) =>
        if e >= |db.experts| {
          return Err(Service(404));
        }
        var _ :- Grading.SubmitGrade(db, cfg, now, e, t, scores, given);
      case ReviewGrade(g, decision) =>
        var _ :- Grading.ReviewGradeNow(db, cfg, now, g, decision);
      case Resolve(t, delivered) =>
        var _ :- Consensus.ResolveRound(db, cfg, now, t, delivered);
    }
    return Ok(());
  }

  method Manage(db: Session, cfg: Settings, now: int, ev: Event) returns (r: Result<()>)
    requires Linked(db.Snapshot())
    requires ev.SetStatus? || ev.ClosePeriod? || ev.Tick? || ev.Export?
    modifies db
    ensures Follows(Apply(cfg, old(db.Snapshot()), now, ev), db.Snapshot(), r)
  {
    hide Delivery.NewDelivery, Payouts.ClosedRows, Payouts.Restate, Ops.UpdateAll, Ops.Reports;
    match ev {
      case SetStatus(e, status) =>
        var _ :- Experts.SetExpertStatus(db, e, status);
      case ClosePeriod(name) =>
        var _ :- Payouts.Close(db, name);
      case Tick =>
        var _ := Ops.TickNow(db, cfg, now);
      case Export =>
        var _ := Delivery.ExportRows(db, cfg);
    }
    return Ok(());
  }
}
