/** Option, and the outcome of a service call: a value, or the error that rolls the request back. */
module Wrappers {
  datatype Option<+T> = None | Some(value: T)

  /** `Service(code)` is a ServiceError with its HTTP status; `Integrity` is a violated uniqueness constraint. */
  datatype Error = Service(code: nat) | Integrity

  datatype Result<+T> = Ok(value: T) | Err(error: Error) {
    predicate IsFailure() {
      Err?
    }

    function PropagateFailure<U>(): Result<U>
      requires Err?
    {
      Err(error)
    }

    function Extract(): T
      requires Ok?
    {
      value
    }
  }
}

/** The rows of the database, the settings, and the session a request works on. */
module Model {
  import opened Wrappers
  import Fips
  import Floats
  import Json
  import Jsonl
  import Numbers

  // A row is named by its position in its table; positions grow with insertion order.
  type ExpertId = nat
  type RubricId = nat
  type TaskId = nat
  type GradeId = nat
  type PeriodId = nat

  type Tag = string
  type Key = string
  type ScoreSheet = map<Key, real>

  datatype Tier = Junior | Senior | Lead

  function Rank(t: Tier): (r: nat) {
    match t
    case Junior => 0
    case Senior => 1
    case Lead => 2
  }

  datatype ExpertStatus = Active | Paused | Inactive
  datatype TaskStatus = Queued | Assigned | Submitted | Adjudication | Approved | Rejected
  datatype RoundStatus = Agreed | Adjudicating | Adjudicated
  datatype Decision = Approve | Reject
  datatype PayoutStatus = Pending | Withheld | Paid

  datatype Expert = Expert(
    tags: set<Tag>,
    tier: Tier,
    rate: Option<int>,
    status: ExpertStatus,
    served: nat,
    calibration: Option<real>,
    samples: nat)

  datatype Criterion = Criterion(key: Key, weight: real, lo: int, hi: int)

  datatype Rubric = Rubric(
    name: string,
    version: int,
    criteria: seq<Criterion>,
    supersededBy: Option<RubricId>)

  /** What happened to a task's lease, oldest first; the audit trail restricted to one task. */
  datatype LeaseEvent =
    | Granted(expert: ExpertId)
    | Released(expert: ExpertId)
    | Reclaimed
    | Graded(expert: ExpertId)

  datatype Task = Task(
    tags: set<Tag>,
    kind: string,
    minTier: Tier,
    rubric: RubricId,
    pinned: Option<RubricId>,
    priority: int,
    deadline: Option<int>,
    status: TaskStatus,
    required: int,
    received: int,
    golden: bool,
    expected: seq<(Key, real)>,
    holder: Option<ExpertId>,
    assignedAt: Option<int>,
    lease: Option<int>,
    reclaims: nat,
    history: seq<LeaseEvent>)

  datatype Grade = Grade(task: TaskId, expert: ExpertId, rubric: RubricId, scores: ScoreSheet, weighted: real, at: int)

  datatype Review = Review(grade: GradeId, decision: Decision, at: int)

  datatype Check = Check(task: TaskId, expert: ExpertId, grade: GradeId, passed: bool, deviation: real, at: int)

  datatype Round = Round(
    status: RoundStatus,
    count: nat,
    spread: real,
    tolerance: real,
    delivered: Option<GradeId>)

  datatype Payout = Payout(
    expert: ExpertId,
    task: TaskId,
    grade: GradeId,
    tier: Tier,
    kind: string,
    amount: int,
    status: PayoutStatus,
    period: Option<PeriodId>)

  datatype Move = Move(expert: ExpertId, from: Tier, to: Tier, rate: real, samples: nat)

  /**
   * An export: the grade each row carries, the object stored under a name with the version in it, and what the row of
   * the export records of that object.
   */
  datatype Delivery = Delivery(version: nat, rows: seq<GradeId>, body: seq<Fips.Byte>, record: Jsonl.Record)

  datatype State = State(
    experts: seq<Expert>,
    rubrics: seq<Rubric>,
    cards: map<(Tier, string), int>,
    tasks: seq<Task>,
    grades: seq<Grade>,
    reviews: seq<Review>,
    checks: seq<Check>,
    rounds: map<TaskId, Round>,
    payouts: seq<Payout>,
    periods: seq<string>,
    moves: seq<Move>,
    deliveries: seq<Delivery>,
    served: seq<(TaskId, ExpertId)>)

  const EMPTY: State := State([], [], map[], [], [], [], [], map[], [], [], [], [], [])

  /** Columns no rule reads, fixed when their row is written; `tags` are a task's required tags in the order given. */
  datatype TaskColumns = TaskColumns(
    id: Numbers.Text,
    externalRef: Option<Numbers.Text>,
    tags: seq<Numbers.Text>,
    prompt: Numbers.Text,
    responses: Json.Json)

  datatype GradeColumns = GradeColumns(rationale: Numbers.Text, seconds: int)

  /** Those columns by row, and how reals become doubles and doubles digits. */
  datatype Columns = Columns(
    task: TaskId -> TaskColumns,
    grade: GradeId -> GradeColumns,
    expert: ExpertId -> Numbers.Text,
    rubric: RubricId -> Numbers.Text,
    floats: Floats.Arithmetic)

  datatype OutvotedRule = Full | Partial | NoPay

  datatype Settings = Settings(
    leaseSeconds: int,
    prefersCheck: (ExpertId, nat) -> bool,
    attentionWindow: nat,
    attentionMinChecks: nat,
    attentionThreshold: real,
    attentionTolerance: real,
    calibrationWindow: nat,
    calibrationMinSamples: nat,
    promoteAt: real,
    demoteAt: real,
    consensusTolerance: real,
    outvotedRule: OutvotedRule,
    outvotedRate: real,
    columns: Columns)

  /** The database session of one request: the same tables as `State`, changed in place. */
  class Session {
    var experts: seq<Expert>
    var rubrics: seq<Rubric>
    var cards: map<(Tier, string), int>
    var tasks: seq<Task>
    var grades: seq<Grade>
    var reviews: seq<Review>
    var checks: seq<Check>
    var rounds: map<TaskId, Round>
    var payouts: seq<Payout>
    var periods: seq<string>
    var moves: seq<Move>
    var deliveries: seq<Delivery>
    var served: seq<(TaskId, ExpertId)>

    function Snapshot(): (s: State)
      reads this
    {
      State(experts, rubrics, cards, tasks, grades, reviews, checks, rounds, payouts, periods, moves, deliveries,
            served)
    }

    constructor ()
      ensures Snapshot() == EMPTY
    {
      experts, rubrics, cards, tasks, grades, reviews, checks := [], [], map[], [], [], [], [];
      rounds, payouts, periods, moves, deliveries, served := map[], [], [], [], [], [];
    }

    /** What closing a session without a commit leaves behind: the state the request started from. */
    method Rollback(s: State)
      modifies this
      ensures Snapshot() == s
    {
      RestoreWork(s);
      RestoreBooks(s);
      assert Snapshot() == State(s.experts, s.rubrics, s.cards, s.tasks, s.grades, s.reviews, s.checks, s.rounds,
                                 s.payouts, s.periods, s.moves, s.deliveries, s.served);
    }

    method RestoreWork(s: State)
      modifies `experts, `rubrics, `cards, `tasks, `grades, `reviews, `checks, `rounds
      ensures experts == s.experts && rubrics == s.rubrics && cards == s.cards && tasks == s.tasks
      ensures grades == s.grades && reviews == s.reviews && checks == s.checks && rounds == s.rounds
    {
      experts, rubrics, cards, tasks := s.experts, s.rubrics, s.cards, s.tasks;
      grades, reviews, checks, rounds := s.grades, s.reviews, s.checks, s.rounds;
    }

    method RestoreBooks(s: State)
      modifies `payouts, `periods, `moves, `deliveries, `served
      ensures payouts == s.payouts && periods == s.periods && moves == s.moves
      ensures deliveries == s.deliveries && served == s.served
    {
      payouts, periods, moves, deliveries, served := s.payouts, s.periods, s.moves, s.deliveries, s.served;
    }
  }
}
