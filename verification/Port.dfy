/**
 * web/src/sim/platform.ts: the in-memory port of the service, its rules over values and its class over mutable rows.
 */
module Port {
  import opened Wrappers
  import opened Scores
  import opened Windows
  import M = Model
  import Floats
  import Json
  import Jsonl
  import Numbers
  import Weighing
  import DeliveryRow = Rows
  import Payouts
  import Attention
  import Grading

  type Id = nat

  datatype Expert = Expert(tags: set<M.Tag>, tier: M.Tier, rate: Option<int>, status: M.ExpertStatus, served: nat)

  datatype Task = Task(
    tags: set<M.Tag>,
    kind: string,
    minTier: M.Tier,
    priority: int,
    deadline: Option<int>,
    status: M.TaskStatus,
    required: int,
    received: int,
    golden: bool,
    expected: Option<seq<(M.Key, real)>>,
    holder: Option<Id>,
    assignedAt: Option<int>,
    lease: Option<int>,
    reclaims: nat)

  /** A grade carries its review in place. */
  datatype Grade = Grade(
    task: Id,
    expert: Id,
    scores: M.ScoreSheet,
    weighted: real,
    at: int,
    review: Option<M.Decision>)

  datatype Rubric = Rubric(name: string, version: int, criteria: seq<M.Criterion>)

  datatype Delivery = Delivery(version: nat, rows: seq<Id>)

  /** The fields of a platform; ids are positions, and `locked` holds the rows of open claim transactions. */
  datatype Sim = Sim(
    experts: seq<Expert>,
    cards: map<(M.Tier, string), int>,
    rubric: Option<Rubric>,
    tasks: seq<Task>,
    grades: seq<Grade>,
    payouts: seq<M.Payout>,
    periods: seq<string>,
    results: seq<M.Check>,
    deliveries: seq<Delivery>,
    locked: set<Id>)

  // ----- seeding ---------------------------------------------------------------------------------

  /** Every criterion of the port's rubric is scored from one to five. */
  function Scaled(criteria: seq<M.Criterion>): (r: seq<M.Criterion>) {
    seq(|criteria|, i requires 0 <= i < |criteria| => criteria[i].(lo := 1, hi := 5))
  }

  /** Later cards replace earlier ones of the same tier and type. */
  function CardsPut(cards: map<(M.Tier, string), int>, more: seq<((M.Tier, string), int)>)
    : (r: map<(M.Tier, string), int>)
  {
    if more == [] then cards else
      var last := more[|more| - 1];
      CardsPut(cards, more[..|more| - 1])[last.0 := last.1]
  }

  function NewTask(tags: set<M.Tag>, kind: string, minTier: M.Tier, priority: int, deadline: Option<int>, required: int,
                   golden: bool, expected: Option<seq<(M.Key, real)>>): (r: Task) {
    Task(tags, kind, minTier, priority, deadline, M.Queued, required, 0, golden, expected, None, None, None, 0)
  }

  function CreateTask(p: Sim, task: Task): (r: Result<Sim>) {
    if p.rubric == None then Err(Service(422)) else Ok(p.(tasks := p.tasks + [task]))
  }

  // ----- routing ---------------------------------------------------------------------------------

  predicate Expired(task: Task, now: int) {
    task.status == M.Assigned && task.lease.Some? && task.lease.value < now
  }

  function Unleased(task: Task): (r: Task) {
    task.(holder := None, assignedAt := None, lease := None)
  }

  function ReclaimedRow(task: Task, now: int, locked: bool): (r: Task) {
    if Expired(task, now) && !locked then Unleased(task).(status := M.Queued, reclaims := task.reclaims + 1) else task
  }

  function Reclaimed(tasks: seq<Task>, now: int, locked: set<Id>): (r: seq<Task>)
    ensures |r| == |tasks|
  {
    seq(|tasks|, i requires 0 <= i < |tasks| => ReclaimedRow(tasks[i], now, i in locked))
  }

  function CountExpired(tasks: seq<Task>, now: int, locked: set<Id>, n: nat): (r: nat)
    requires n <= |tasks|
  {
    if n == 0 then 0 else
      CountExpired(tasks, now, locked, n - 1) + if Expired(tasks[n - 1], now) && n - 1 !in locked then 1 else 0
  }

  function EligibleTiers(tier: M.Tier): (r: set<M.Tier>) {
    set t: M.Tier | M.Rank(t) <= M.Rank(tier)
  }

  predicate AlreadyGraded(grades: seq<Grade>, e: Id, t: Id) {
    exists g | 0 <= g < |grades| :: grades[g].task == t && grades[g].expert == e
  }

  predicate IsEligible(p: Sim, e: Id, t: Id)
    requires e < |p.experts| && t < |p.tasks|
  {
    && p.tasks[t].status == M.Queued
    && p.tasks[t].tags * p.experts[e].tags != {}
    && p.tasks[t].minTier in EligibleTiers(p.experts[e].tier)
    && !AlreadyGraded(p.grades, e, t)
  }

  /** Negative when i goes first; the last difference is of sequence numbers. */
  function Order(tasks: seq<Task>, i: Id, j: Id): (r: int)
    requires i < |tasks| && j < |tasks|
  {
    var a, b := tasks[i], tasks[j];
    if a.priority != b.priority then b.priority - a.priority
    else if a.deadline != b.deadline then
      (if a.deadline == None then 1 else if b.deadline == None then -1 else a.deadline.value - b.deadline.value)
    else i - j
  }

  predicate Wanted(p: Sim, e: Id, want: Option<bool>, t: Id)
    requires e < |p.experts|
  {
    t < |p.tasks| && IsEligible(p, e, t) && t !in p.locked && (want == None || p.tasks[t].golden == want.value)
  }

  predicate Rows(ids: seq<Id>, n: nat) {
    forall i | 0 <= i < |ids| :: ids[i] < n
  }

  function Filtered(p: Sim, e: Id, want: Option<bool>, n: nat): (r: seq<Id>)
    requires e < |p.experts| && n <= |p.tasks|
    ensures Rows(r, |p.tasks|)
    ensures forall t: Id :: t in r <==> t < n && Wanted(p, e, want, t)
  {
    if n == 0 then [] else
      var rest, last := Filtered(p, e, want, n - 1), n - 1;
      if Wanted(p, e, want, last) then rest + [last] else rest
  }

  function Insert(tasks: seq<Task>, t: Id, ids: seq<Id>): (r: seq<Id>)
    requires t < |tasks| && Rows(ids, |tasks|)
    ensures Rows(r, |tasks|) && multiset(r) == multiset(ids) + multiset{t}
  {
    if ids == [] || Order(tasks, t, ids[0]) <= 0 then [t] + ids else
      assert ids == [ids[0]] + ids[1..];
      [ids[0]] + Insert(tasks, t, ids[1..])
  }

  function Sorted(tasks: seq<Task>, ids: seq<Id>): (r: seq<Id>)
    requires Rows(ids, |tasks|)
    ensures Rows(r, |tasks|) && multiset(r) == multiset(ids)
  {
    if ids == [] then [] else
      assert ids == [ids[0]] + ids[1..];
      Insert(tasks, ids[0], Sorted(tasks, ids[1..]))
  }

  /** The ordered list of tasks an expert would be offered. */
  function Candidates(p: Sim, e: Id, want: Option<bool>): (r: seq<Id>)
    requires e < |p.experts|
    ensures Rows(r, |p.tasks|) && forall t: Id :: t in r <==> Wanted(p, e, want, t)
  {
    var ids := Filtered(p, e, want, |p.tasks|);
    var r := Sorted(p.tasks, ids);
    assert forall t :: t in r <==> t in multiset(r);
    assert forall t :: t in ids <==> t in multiset(ids);
    r
  }

  function Pick(p: Sim, e: Id, want: Option<bool>): (r: Option<Id>)
    requires e < |p.experts|
    ensures r.Some? ==> r.value < |p.tasks| && Wanted(p, e, want, r.value)
  {
    var ids := Candidates(p, e, want);
    if ids == [] then None else
      assert ids[0] in ids;
      Some(ids[0])
  }

  function AssignedRow(leaseSeconds: int, task: Task, now: int, e: Id): (r: Task) {
    task.(status := M.Assigned, holder := Some(e), assignedAt := Some(now), lease := Some(now + leaseSeconds * 1000))
  }

  function Assign(cfg: M.Settings, p: Sim, now: int, t: Id, e: Id): (r: Sim)
    requires e < |p.experts| && t < |p.tasks|
  {
    p.(tasks := p.tasks[t := AssignedRow(cfg.leaseSeconds, p.tasks[t], now, e)],
       experts := p.experts[e := p.experts[e].(served := p.experts[e].served + 1)])
  }

  /** The claim: refused with 423, or the state after it with the task served (None is the 204). */
  function ClaimNext(cfg: M.Settings, p: Sim, now: int, e: Id): (r: Result<(Sim, Option<Id>)>)
    requires e < |p.experts|
  {
    if p.experts[e].status != M.Active then Err(Service(423)) else
      var p1 := p.(tasks := Reclaimed(p.tasks, now, p.locked));
      var golden := if cfg.prefersCheck(e, p1.experts[e].served + 1) then Pick(p1, e, Some(true)) else None;
      var pick := if golden.Some? then golden else Pick(p1, e, Some(false));
      if pick == None then Ok((p1, None)) else Ok((Assign(cfg, p1, now, pick.value, e), pick))
  }

  /** Claims a named task: the state after it and the error it threw, if any. Expired leases are reclaimed first. */
  function ClaimById(cfg: M.Settings, p: Sim, now: int, e: Id, t: Id, hold: bool): (r: (Sim, Option<Error>))
    requires e < |p.experts|
  {
    if p.experts[e].status != M.Active then (p, Some(Service(423))) else
      var p1 := p.(tasks := Reclaimed(p.tasks, now, p.locked));
      if t >= |p1.tasks| then (p1, Some(Service(404)))
      else if t in p1.locked || p1.tasks[t].status != M.Queued then (p1, Some(Service(409)))
      else if p1.tasks[t].tags * p1.experts[e].tags == {} then (p1, Some(Service(403)))
      else if M.Rank(p1.tasks[t].minTier) > M.Rank(p1.experts[e].tier) then (p1, Some(Service(403)))
      else (Assign(cfg, if hold then p1.(locked := p1.locked + {t}) else p1, now, t, e), None)
  }

  function Release(p: Sim, e: Id, t: Id): (r: Result<Sim>) {
    if t >= |p.tasks| then Err(Service(404))
    else if p.tasks[t].status != M.Assigned || p.tasks[t].holder != Some(e) then Err(Service(409))
    else Ok(p.(tasks := p.tasks[t := Unleased(p.tasks[t]).(status := M.Queued)]))
  }

  // ----- grading and attention ---------------------------------------------------------------------

  function GradedRow(task: Task): (r: Task) {
    Unleased(task).(
      received := task.received + 1,
      status := if task.golden || task.received + 1 < task.required then M.Queued else M.Submitted)
  }

  function CheckOf(cfg: M.Settings, task: Task, g: Id, grade: Grade): (r: Option<M.Check>) {
    if !task.golden || task.expected == None then None else
      var dev := Attention.MaxDeviation(task.expected.value, grade.scores);
      Some(M.Check(grade.task, grade.expert, g, dev <= cfg.attentionTolerance, dev, grade.at))
  }

  /** The expert's results, newest first. */
  function ResultsOf(results: seq<M.Check>, e: Id): (r: seq<bool>) {
    if results == [] then [] else
      var last := results[|results| - 1];
      (if last.expert == e then [last.passed] else []) + ResultsOf(results[..|results| - 1], e)
  }

  function RollingPassRate(cfg: M.Settings, results: seq<M.Check>, e: Id): (r: (Option<real>, nat, nat)) {
    var recent := Limit(ResultsOf(results, e), cfg.attentionWindow);
    if recent == [] then (None, 0, 0) else (Some(Rate(recent)), Agreeing(recent), |recent|)
  }

  function Enforced(cfg: M.Settings, p: Sim, e: Id): (r: Sim)
    requires e < |p.experts|
  {
    var (rate, _, total) := RollingPassRate(cfg, p.results, e);
    if rate == None || total < cfg.attentionMinChecks || rate.value >= cfg.attentionThreshold then p
    else if p.experts[e].status == M.Paused then p
    else p.(experts := p.experts[e := p.experts[e].(status := M.Paused)],
            payouts := Payouts.Restate(p.payouts, e, M.Pending, M.Withheld))
  }

  /** The attention check of a submission, with the guard after a failure. */
  function Checked(cfg: M.Settings, p: Sim, t: Id, g: Id, e: Id): (r: Sim)
    requires t < |p.tasks| && g < |p.grades| && e < |p.experts|
  {
    var check := CheckOf(cfg, p.tasks[t], g, p.grades[g]);
    if check == None then p else
      var p1 := p.(results := p.results + [check.value]);
      if check.value.passed then p1 else Enforced(cfg, p1, e)
  }

  function NewGrade(p: Sim, now: int, e: Id, t: Id, scores: M.ScoreSheet): (g: Grade)
    requires p.rubric.Some? && Grading.ValidScores(p.rubric.value.criteria, scores)
  {
    assert forall c <- p.rubric.value.criteria :: c.key in Grading.CriterionKeys(p.rubric.value.criteria);
    Grade(t, e, scores, Weighted(p.rubric.value.criteria, scores), now, None)
  }

  function Submit(cfg: M.Settings, p: Sim, now: int, e: Id, t: Id, scores: M.ScoreSheet): (r: Result<Sim>)
    requires e < |p.experts|
  {
    if t >= |p.tasks| then Err(Service(404))
    else if p.tasks[t].status != M.Assigned || p.tasks[t].holder != Some(e) then Err(Service(409))
    else if p.rubric == None || !Grading.ValidScores(p.rubric.value.criteria, scores) then Err(Service(422))
    else
      var grade := NewGrade(p, now, e, t, scores);
      var p1 := p.(grades := p.grades + [grade], tasks := p.tasks[t := GradedRow(p.tasks[t])]);
      Ok(Checked(cfg, p1, t, |p.grades|, e))
  }

  function Reinstated(p: Sim, e: Id): (r: Sim)
    requires e < |p.experts|
  {
    p.(experts := p.experts[e := p.experts[e].(status := M.Active)],
       payouts := Payouts.Restate(p.payouts, e, M.Withheld, M.Pending))
  }

  // ----- reviews and payouts -------------------------------------------------------------------------

  function RateFor(cards: map<(M.Tier, string), int>, expert: Expert, kind: string): (r: Result<int>) {
    if expert.rate.Some? then Ok(expert.rate.value)
    else if (expert.tier, kind) in cards then Ok(cards[(expert.tier, kind)])
    else if (expert.tier, "default") in cards then Ok(cards[(expert.tier, "default")])
    else Err(Service(422))
  }

  predicate HasPayout(payouts: seq<M.Payout>, g: Id) {
    exists i | 0 <= i < |payouts| :: payouts[i].grade == g
  }

  /** The payouts after paying the grade g in full: unchanged when it has one, refused without a rate. */
  function Paid(p: Sim, g: Id): (r: Result<seq<M.Payout>>)
    requires g < |p.grades| && p.grades[g].task < |p.tasks|
  {
    var grade := p.grades[g];
    if HasPayout(p.payouts, g) then Ok(p.payouts)
    else if grade.expert >= |p.experts| then Err(Service(404))
    else
      var expert, task := p.experts[grade.expert], p.tasks[grade.task];
      var amount :- RateFor(p.cards, expert, task.kind);
      Ok(p.payouts + [M.Payout(grade.expert, grade.task, g, expert.tier, task.kind, amount,
                               if expert.status == M.Paused then M.Withheld else M.Pending, None)])
  }

  function ReviewedRow(task: Task, decision: M.Decision): (r: Task) {
    if task.golden then task
    else if decision == M.Approve then task.(status := M.Approved)
    else if task.required == 1 then
      task.(status := M.Queued, received := if task.received - 1 > 0 then task.received - 1 else 0)
    else if task.status != M.Approved then task.(status := M.Rejected)
    else task
  }

  /**
   * The state a review leaves and whether it threw: the decision is written first and stays if the payout has no rate.
   */
  function Review(p: Sim, g: Id, decision: M.Decision): (r: (Sim, Option<Error>)) {
    if g >= |p.grades| then (p, Some(Service(404)))
    else if p.grades[g].review.Some? then (p, Some(Service(409)))
    else
      var p1 := p.(grades := p.grades[g := p.grades[g].(review := Some(decision))]);
      var t := p.grades[g].task;
      if t >= |p.tasks| then (p1, Some(Service(404))) else
        var p2 := p1.(tasks := p1.tasks[t := ReviewedRow(p1.tasks[t], decision)]);
        if decision == M.Approve then
          match Paid(p1, g)
          case Ok(payouts) => (p2.(payouts := payouts), None)
          case Err(error) => (p1, Some(error))
        else (p2, None)
  }

  function ClosePeriod(p: Sim, name: string): (r: Result<Sim>) {
    if name in p.periods then Err(Service(409)) else
      Ok(p.(periods := p.periods + [name], payouts := Payouts.ClosedRows(p.payouts, |p.periods|)))
  }

  datatype PeriodTotals = PeriodTotals(period: Id, name: string, count: nat, cents: int, experts: nat)

  function PaidExperts(payouts: seq<M.Payout>, period: Id): (r: set<Id>) {
    set i | 0 <= i < |payouts| && payouts[i].period == Some(period) :: payouts[i].expert
  }

  function TotalsOf(payouts: seq<M.Payout>, period: Id, name: string): (r: PeriodTotals) {
    PeriodTotals(period, name, Payouts.Count(payouts, Payouts.InPeriod(period)),
                 Payouts.Cents(payouts, Payouts.InPeriod(period)), |PaidExperts(payouts, period)|)
  }

  // ----- delivery ---------------------------------------------------------------------------------------

  predicate Delivered(p: Sim, g: Id)
    requires g < |p.grades|
  {
    p.grades[g].review == Some(M.Approve) && p.grades[g].task < |p.tasks| && !p.tasks[p.grades[g].task].golden
  }

  function Selected(p: Sim, n: nat): (r: seq<Id>)
    requires n <= |p.grades|
    ensures Rows(r, |p.grades|)
  {
    if n == 0 then [] else Selected(p, n - 1) + if Delivered(p, n - 1) then [n - 1] else []
  }

  /** By task sequence number, then by expert id; zero only for the same task and expert. */
  function RowOrder(grades: seq<Grade>, a: Id, b: Id): (r: int)
    requires a < |grades| && b < |grades|
  {
    if grades[a].task != grades[b].task then grades[a].task - grades[b].task
    else if grades[a].expert < grades[b].expert then -1
    else if grades[a].expert > grades[b].expert then 1 else 0
  }

  function InsertRow(grades: seq<Grade>, g: Id, rows: seq<Id>): (r: seq<Id>)
    requires g < |grades| && Rows(rows, |grades|)
    ensures Rows(r, |grades|)
  {
    if rows == [] || RowOrder(grades, g, rows[0]) <= 0 then [g] + rows else [rows[0]] + InsertRow(grades, g, rows[1..])
  }

  function SortedRows(grades: seq<Grade>, ids: seq<Id>): (r: seq<Id>)
    requires Rows(ids, |grades|)
    ensures Rows(r, |grades|)
  {
    if ids == [] then [] else InsertRow(grades, ids[0], SortedRows(grades, ids[1..]))
  }

  function DeliveryRows(p: Sim): (r: seq<Id>)
    ensures Rows(r, |p.grades|) && (r != [] ==> p.rubric.Some?)
  {
    if p.rubric == None then [] else SortedRows(p.grades, Selected(p, |p.grades|))
  }

  /** The largest version so far, at least zero. */
  function MaxVersion(deliveries: seq<Delivery>): (r: nat) {
    if deliveries == [] then 0 else
      var rest, last := MaxVersion(deliveries[..|deliveries| - 1]), deliveries[|deliveries| - 1].version;
      if last > rest then last else rest
  }

  function Export(p: Sim): (r: Sim) {
    p.(deliveries := p.deliveries + [Delivery(MaxVersion(p.deliveries) + 1, DeliveryRows(p))])
  }

  /** `Object.fromEntries` over the criteria: one score a key, zero where there is none. */
  function ScoreList(columns: M.Columns, criteria: seq<M.Criterion>, scores: M.ScoreSheet)
    : (r: seq<(M.Key, Numbers.Double)>)
  {
    if criteria == [] then [] else
      var c, rest := criteria[0], ScoreList(columns, criteria[1..], scores);
      if exists d <- criteria[1..] :: d.key == c.key then rest
      else [(c.key, columns.floats.digits(Floats.Of(columns.floats, Weighing.ScoreOf(scores, c.key))))] + rest
  }

  /** What a delivered row holds; the port has no consensus rounds. */
  function Contents(columns: M.Columns, p: Sim, g: Id): (c: DeliveryRow.Contents)
    requires p.rubric.Some? && g < |p.grades| && p.grades[g].task < |p.tasks| && p.grades[g].expert < |p.experts|
  {
    var grade, rubric := p.grades[g], p.rubric.value;
    DeliveryRow.Contents(
      columns.task(grade.task), p.tasks[grade.task].kind, columns.rubric(0), rubric.name, rubric.version,
      columns.expert(grade.expert), p.experts[grade.expert].tier, ScoreList(columns, rubric.criteria, grade.scores),
      columns.floats.digits(Weighing.PortScore(columns.floats, rubric.criteria, grade.scores)), columns.grade(g), None)
  }

  /** Grades are of tasks and experts of the platform. */
  predicate Linked(p: Sim) {
    forall g | 0 <= g < |p.grades| :: p.grades[g].task < |p.tasks| && p.grades[g].expert < |p.experts|
  }

  function RowValues(columns: M.Columns, p: Sim): (r: seq<Json.Json>)
    requires Linked(p)
    ensures |r| == |DeliveryRows(p)|
  {
    var rows := DeliveryRows(p);
    seq(|rows|, i requires 0 <= i < |rows| =>
      DeliveryRow.Row(Floats.JsOf(columns.floats), Contents(columns, p, rows[i])))
  }

  // ----- the class ----------------------------------------------------------------------------------------

  /** How many payouts, and their sum. */
  datatype Totals = Totals(count: nat, cents: int)

  function TotalsBy(payouts: seq<M.Payout>, status: M.PayoutStatus): (r: Totals) {
    Totals(Payouts.Count(payouts, Payouts.InStatus(status)), Payouts.Cents(payouts, Payouts.InStatus(status)))
  }

  datatype LedgerRow = LedgerRow(expert: Id, status: M.PayoutStatus, count: nat, cents: int)

  class Platform {
    const cfg: M.Settings
    var experts: seq<Expert>
    var cards: map<(M.Tier, string), int>
    var rubric: Option<Rubric>
    var tasks: seq<Task>
    var grades: seq<Grade>
    var payouts: seq<M.Payout>
    var periods: seq<string>
    var results: seq<M.Check>
    var deliveries: seq<Delivery>
    var locked: set<Id>
    /** What each delivery records of its body. */
    var records: seq<Jsonl.Record>

    function Value(): (p: Sim)
      reads this
    {
      Sim(experts, cards, rubric, tasks, grades, payouts, periods, results, deliveries, locked)
    }

    constructor (cfg: M.Settings)
      ensures Value() == Sim([], map[], None, [], [], [], [], [], [], {}) && records == []
    {
      this.cfg := cfg;
      experts, cards, rubric, tasks, grades := [], map[], None, [], [];
      payouts, periods, results, deliveries, locked, records := [], [], [], [], {}, [];
    }

    method CreateRubric(name: string, version: int, criteria: seq<M.Criterion>)
      modifies `rubric
      ensures rubric == Some(Rubric(name, version, Scaled(criteria)))
    {
      rubric := Some(Rubric(name, version, Scaled(criteria)));
    }

    method PutRateCards(more: seq<((M.Tier, string), int)>)
      modifies `cards
      ensures cards == CardsPut(old(cards), more)
    {
      for n := 0 to |more|
        invariant cards == CardsPut(old(cards), more[..n])
      {
        assert more[..n + 1][..n] == more[..n];
        cards := cards[more[n].0 := more[n].1];
      }
      assert more[..|more|] == more;
    }

    method AddExpert(tags: set<M.Tag>, tier: M.Tier, rate: Option<int>) returns (e: Id)
      modifies `experts
      ensures experts == old(experts) + [Expert(tags, tier, rate, M.Active, 0)] && e == |old(experts)|
    {
      e := |experts|;
      experts := experts + [Expert(tags, tier, rate, M.Active, 0)];
    }

    method AddTask(task: Task) returns (r: Result<Id>)
      modifies `tasks
      ensures match CreateTask(old(Value()), task)
              case Ok(p) => r == Ok(|old(tasks)|) && Value() == p
              case Err(error) => r == Err(error) && Value() == old(Value())
    {
      if rubric == None {
        return Err(Service(422));
      }
      tasks := tasks + [task];
      return Ok(|tasks| - 1);
    }

    method ReclaimExpired(now: int) returns (n: nat)
      modifies `tasks
      ensures tasks == Reclaimed(old(tasks), now, locked)
      ensures n == CountExpired(old(tasks), now, locked, |tasks|)
    {
      n := 0;
      for i := 0 to |tasks|
        invariant |tasks| == |old(tasks)| && n == CountExpired(old(tasks), now, locked, i)
        invariant forall j | 0 <= j < |tasks| ::
                    tasks[j] == if j < i then ReclaimedRow(old(tasks)[j], now, j in locked) else old(tasks)[j]
      {
        var task := tasks[i];
        if task.status == M.Assigned && task.lease.Some? && task.lease.value < now && i !in locked {
          task := task.(status := M.Queued);
          task := task.(holder := None, assignedAt := None, lease := None);
          task := task.(reclaims := task.reclaims + 1);
          tasks := tasks[i := task];
          n := n + 1;
        }
      }
    }

    method AssignTask(t: Id, e: Id, now: int)
      requires t < |tasks| && e < |experts|
      modifies this
      ensures Value() == Assign(cfg, old(Value()), now, t, e)
    {
      var task := tasks[t];
      task := task.(status := M.Assigned, holder := Some(e), assignedAt := Some(now));
      task := task.(lease := Some(now + cfg.leaseSeconds * 1000));
      tasks := tasks[t := task];
      experts := experts[e := experts[e].(served := experts[e].served + 1)];
    }

    method Claim(e: Id, now: int) returns (r: Result<Option<Id>>)
      requires e < |experts|
      modifies this
      ensures match ClaimNext(cfg, old(Value()), now, e)
              case Ok((p, task)) => r == Ok(task) && Value() == p
              case Err(error) => r == Err(error) && Value() == old(Value())
    {
      hide Candidates, IsEligible, ReclaimedRow, Pick, Wanted;
      if experts[e].status != M.Active {
        return Err(Service(423));
      }
      var _ := ReclaimExpired(now);
      assert Value() == old(Value()).(tasks := Reclaimed(old(tasks), now, locked));
      var preferred := cfg.prefersCheck(e, experts[e].served + 1);
      var task: Option<Id> := None;
      if preferred {
        task := Pick(Value(), e, Some(true));
      }
      if task == None {
        task := Pick(Value(), e, Some(false));
      }
      if task == None {
        return Ok(None);
      }
      AssignTask(task.value, e, now);
      return Ok(task);
    }

    /** Claims a named task; `hold` keeps its row locked after the call. */
    method ClaimNamed(e: Id, t: Id, now: int, hold: bool) returns (r: Result<()>)
      requires e < |experts|
      modifies this
      ensures match ClaimById(cfg, old(Value()), now, e, t, hold)
              case (p, None) => r.Ok? && Value() == p
              case (p, Some(error)) => r == Err(error) && Value() == p
    {
      hide ReclaimedRow;
      if experts[e].status != M.Active {
        return Err(Service(423));
      }
      var _ := ReclaimExpired(now);
      assert Value() == old(Value()).(tasks := Reclaimed(old(tasks), now, locked));
      if t >= |tasks| {
        return Err(Service(404));
      }
      if t in locked || tasks[t].status != M.Queued {
        return Err(Service(409));
      }
      if tasks[t].tags * experts[e].tags == {} || M.Rank(tasks[t].minTier) > M.Rank(experts[e].tier) {
        return Err(Service(403));
      }
      if hold {
        locked := locked + {t};
      }
      AssignTask(t, e, now);
      return Ok(());
    }

    method ReleaseTask(e: Id, t: Id) returns (r: Result<()>)
      modifies `tasks
      ensures match Release(old(Value()), e, t)
              case Ok(p) => r.Ok? && Value() == p
              case Err(error) => r == Err(error) && Value() == old(Value())
    {
      if t >= |tasks| {
        return Err(Service(404));
      }
      var task := tasks[t];
      if task.status != M.Assigned || task.holder != Some(e) {
        return Err(Service(409));
      }
      task := task.(status := M.Queued);
      task := task.(holder := None, assignedAt := None, lease := None);
      tasks := tasks[t := task];
      return Ok(());
    }

    /** `weighted`: one reduce for the total weight, one for the sum. */
    method WeightedScore(criteria: seq<M.Criterion>, scores: M.ScoreSheet) returns (w: real)
      requires forall c <- criteria :: c.key in scores
      ensures w == Weighted(criteria, scores)
    {
      var total := 0.0;
      for i := 0 to |criteria|
        invariant total + TotalWeight(criteria[i..]) == TotalWeight(criteria)
      {
        assert criteria[i..][0] == criteria[i] && criteria[i..][1..] == criteria[i + 1..];
        total := total + criteria[i].weight;
      }
      if total == 0.0 {
        total := 1.0;
      }
      var sum := 0.0;
      for i := 0 to |criteria|
        invariant sum + WeightedSum(criteria[i..], scores) == WeightedSum(criteria, scores)
      {
        assert criteria[i..][0] == criteria[i] && criteria[i..][1..] == criteria[i + 1..];
        sum := sum + scores[criteria[i].key] * criteria[i].weight;
      }
      return sum / total;
    }

    method EvaluateAttention(t: Id, g: Id) returns (r: Option<M.Check>)
      requires t < |tasks| && g < |grades|
      modifies `results
      ensures r == CheckOf(cfg, tasks[t], g, grades[g])
      ensures results == old(results) + if r.Some? then [r.value] else []
    {
      var task, grade := tasks[t], grades[g];
      if !task.golden || task.expected == None {
        return None;
      }
      var expected := task.expected.value;
      var worst, i := 0.0, |expected|;
      while i > 0
        invariant 0 <= i <= |expected|
        invariant worst == Attention.MaxDeviation(expected[i..], grade.scores)
      {
        i := i - 1;
        var d := Attention.Deviation(grade.scores, expected[i].0, expected[i].1);
        assert expected[i..][1..] == expected[i + 1..];
        if d > worst {
          worst := d;
        }
      }
      assert expected[0..] == expected;
      var check := M.Check(grade.task, grade.expert, g, worst <= cfg.attentionTolerance, worst, grade.at);
      results := results + [check];
      return Some(check);
    }

    /** Sets every payout of e in the status `from` to the status `to`, and counts them. */
    method RestatePayouts(e: Id, from: M.PayoutStatus, to: M.PayoutStatus) returns (n: nat)
      modifies `payouts
      ensures payouts == Payouts.Restate(old(payouts), e, from, to)
      ensures n == Payouts.Count(old(payouts), Payouts.OfExpert(e, from))
    {
      n := 0;
      for i := 0 to |payouts|
        invariant |payouts| == |old(payouts)| && n == Payouts.Count(old(payouts)[..i], Payouts.OfExpert(e, from))
        invariant forall j | 0 <= j < |payouts| ::
                    payouts[j] == if j < i then Payouts.Restate(old(payouts), e, from, to)[j] else old(payouts)[j]
      {
        assert old(payouts)[..i + 1][..i] == old(payouts)[..i];
        if payouts[i].expert == e && payouts[i].status == from {
          payouts := payouts[i := payouts[i].(status := to)];
          n := n + 1;
        }
      }
      assert old(payouts)[..|payouts|] == old(payouts);
    }

    method EnforceAttention(e: Id) returns (paused: bool)
      requires e < |experts|
      modifies `experts, `payouts
      ensures Value() == Enforced(cfg, old(Value()), e)
      ensures paused <==> experts[e].status != old(experts)[e].status
    {
      var (rate, _, total) := RollingPassRate(cfg, results, e);
      if rate == None || total < cfg.attentionMinChecks || rate.value >= cfg.attentionThreshold {
        return false;
      }
      if experts[e].status == M.Paused {
        return false;
      }
      experts := experts[e := experts[e].(status := M.Paused)];
      var _ := RestatePayouts(e, M.Pending, M.Withheld);
      return true;
    }

    /** The two reductions over doubles: what an export prints of the score. */
    method StoredScore(criteria: seq<M.Criterion>, scores: M.ScoreSheet) returns (r: Floats.Double64)
      ensures r == Weighing.PortScore(cfg.columns.floats, criteria, scores)
    {
      var total, sum := Floats.NOUGHT, Floats.NOUGHT;
      for i := 0 to |criteria|
        invariant total == Floats.PlainSum(cfg.columns.floats, Weighing.Weights(cfg.columns.floats, criteria[..i]))
      {
        assert criteria[..i + 1][..i] == criteria[..i];
        total := Floats.Add(cfg.columns.floats, total, Floats.Of(cfg.columns.floats, criteria[i].weight));
        Appended(cfg.columns.floats, Weighing.Weights(cfg.columns.floats, criteria[..i]),
                 Floats.Of(cfg.columns.floats, criteria[i].weight));
      }
      for i := 0 to |criteria|
        invariant sum
               == Floats.PlainSum(cfg.columns.floats, Weighing.Products(cfg.columns.floats, criteria[..i], scores))
      {
        assert criteria[..i + 1][..i] == criteria[..i];
        var score := Floats.Of(cfg.columns.floats, Weighing.ScoreOf(scores, criteria[i].key));
        var product := Floats.Mul(cfg.columns.floats, score, Floats.Of(cfg.columns.floats, criteria[i].weight));
        sum := Floats.Add(cfg.columns.floats, sum, product);
        Appended(cfg.columns.floats, Weighing.Products(cfg.columns.floats, criteria[..i], scores), product);
      }
      assert criteria[..|criteria|] == criteria;
      return Floats.Div(cfg.columns.floats, sum, Weighing.OrOne(total));
    }

    method SubmitGrade(e: Id, t: Id, scores: M.ScoreSheet, now: int) returns (r: Result<Id>)
      requires e < |experts|
      modifies this
      ensures match Submit(cfg, old(Value()), now, e, t, scores)
              case Ok(p) => r == Ok(|old(grades)|) && Value() == p
              case Err(error) => r == Err(error) && Value() == old(Value())
    {
      hide Checked, Weighted;
      if t >= |tasks| {
        return Err(Service(404));
      }
      var task := tasks[t];
      if task.status != M.Assigned || task.holder != Some(e) {
        return Err(Service(409));
      }
      if rubric == None || !Grading.ValidScores(rubric.value.criteria, scores) {
        return Err(Service(422));
      }
      assert forall c <- rubric.value.criteria :: c.key in Grading.CriterionKeys(rubric.value.criteria);
      var weighted := WeightedScore(rubric.value.criteria, scores);
      var g := |grades|;
      grades := grades + [Grade(t, e, scores, weighted, now, None)];
      task := task.(received := task.received + 1);
      task := task.(holder := None, assignedAt := None, lease := None);
      task := task.(status := if task.golden || task.received < task.required then M.Queued else M.Submitted);
      tasks := tasks[t := task];
      CheckGrade(t, g, e);
      return Ok(g);
    }

    method CheckGrade(t: Id, g: Id, e: Id)
      requires t < |tasks| && g < |grades| && e < |experts|
      modifies this
      ensures Value() == Checked(cfg, old(Value()), t, g, e)
    {
      var check := EvaluateAttention(t, g);
      if check.Some? && !check.value.passed {
        var _ := EnforceAttention(e);
      }
    }

    method Reinstate(e: Id) returns (n: nat)
      requires e < |experts|
      modifies `experts, `payouts
      ensures Value() == Reinstated(old(Value()), e)
      ensures n == Payouts.Count(old(payouts), Payouts.OfExpert(e, M.Withheld))
    {
      experts := experts[e := experts[e].(status := M.Active)];
      n := RestatePayouts(e, M.Withheld, M.Pending);
    }

    method CreatePayout(g: Id) returns (r: Result<()>)
      requires g < |grades| && grades[g].task < |tasks|
      modifies `payouts
      ensures match Paid(old(Value()), g)
              case Ok(rows) => r.Ok? && payouts == rows
              case Err(error) => r == Err(error) && payouts == old(payouts)
    {
      if HasPayout(payouts, g) {
        return Ok(());
      }
      var grade := grades[g];
      if grade.expert >= |experts| {
        return Err(Service(404));
      }
      var expert, task := experts[grade.expert], tasks[grade.task];
      var amount :- RateFor(cards, expert, task.kind);
      var status := if expert.status == M.Paused then M.Withheld else M.Pending;
      payouts := payouts + [M.Payout(grade.expert, grade.task, g, expert.tier, task.kind, amount, status, None)];
      return Ok(());
    }

    method ReviewGrade(g: Id, decision: M.Decision) returns (r: Result<()>)
      modifies this
      ensures Value() == Review(old(Value()), g, decision).0
      ensures r == match Review(old(Value()), g, decision).1 case Some(error) => Err(error) case None => Ok(())
    {
      if g >= |grades| {
        return Err(Service(404));
      }
      if grades[g].review.Some? {
        return Err(Service(409));
      }
      grades := grades[g := grades[g].(review := Some(decision))];
      var t := grades[g].task;
      if t >= |tasks| {
        return Err(Service(404));
      }
      if decision == M.Approve {
        var _ :- CreatePayout(g);
      }
      var task := tasks[t];
      if !task.golden {
        if decision == M.Approve {
          task := task.(status := M.Approved);
        } else if task.required == 1 {
          task := task.(status := M.Queued);
          task := task.(received := if task.received - 1 > 0 then task.received - 1 else 0);
        } else if task.status != M.Approved {
          task := task.(status := M.Rejected);
        }
        tasks := tasks[t := task];
      }
      assert tasks == old(tasks)[t := ReviewedRow(old(tasks)[t], decision)];
      return Ok(());
    }

    method Close(name: string) returns (r: Result<PeriodTotals>)
      modifies `periods, `payouts
      ensures match ClosePeriod(old(Value()), name)
              case Ok(p) => r == Ok(TotalsOf(p.payouts, |old(periods)|, name)) && Value() == p
              case Err(error) => r == Err(error) && Value() == old(Value())
    {
      if name in periods {
        return Err(Service(409));
      }
      var period := |periods|;
      periods := periods + [name];
      for i := 0 to |payouts|
        invariant periods == old(periods) + [name] && |payouts| == |old(payouts)|
        invariant forall j | 0 <= j < |payouts| ::
                    payouts[j] == if j < i then Payouts.CloseRow(old(payouts)[j], period) else old(payouts)[j]
      {
        if payouts[i].status == M.Pending && payouts[i].period == None {
          payouts := payouts[i := payouts[i].(status := M.Paid, period := Some(period))];
        }
      }
      assert payouts == Payouts.ClosedRows(old(payouts), period);
      var totals := SumPeriod(period, name);
      return Ok(totals);
    }

    /** The number of payouts of a period, their sum and the number of experts paid. */
    method SumPeriod(period: Id, name: string) returns (r: PeriodTotals)
      ensures r == TotalsOf(payouts, period, name)
    {
      var count, cents, paid := 0, 0, {};
      for i := 0 to |payouts|
        invariant count == Payouts.Count(payouts[..i], Payouts.InPeriod(period))
        invariant cents == Payouts.Cents(payouts[..i], Payouts.InPeriod(period))
        invariant paid == PaidExperts(payouts[..i], period)
      {
        assert payouts[..i + 1][..i] == payouts[..i];
        if payouts[i].period == Some(period) {
          count, cents, paid := count + 1, cents + payouts[i].amount, paid + {payouts[i].expert};
        }
      }
      assert payouts[..|payouts|] == payouts;
      return PeriodTotals(period, name, count, cents, |paid|);
    }

    method BuildJsonl() returns (body: Numbers.Text, count: nat)
      requires Linked(Value())
      ensures body == Jsonl.Body(Jsonl.Lines(Floats.JsOf(cfg.columns.floats), RowValues(cfg.columns, Value())))
      ensures count == |DeliveryRows(Value())|
    {
      hide DeliveryRows, Jsonl.Body, Jsonl.Lines, Contents, DeliveryRow.Row, Linked;
      var rows := RowValues(cfg.columns, Value());
      body, count := Jsonl.Body(Jsonl.Lines(Floats.JsOf(cfg.columns.floats), rows)), |rows|;
    }

    method NextVersion() returns (version: nat)
      ensures version == MaxVersion(deliveries) + 1
    {
      version := 0;
      for i := 0 to |deliveries|
        invariant version == MaxVersion(deliveries[..i])
      {
        assert deliveries[..i + 1][..i] == deliveries[..i];
        if deliveries[i].version > version {
          version := deliveries[i].version;
        }
      }
      assert deliveries[..|deliveries|] == deliveries;
      version := version + 1;
    }

    method ExportDelivery() returns (version: nat, record: Jsonl.Record)
      requires Linked(Value())
      modifies `deliveries, `records
      ensures Value() == Export(old(Value())) && version == deliveries[|deliveries| - 1].version
      ensures record == Jsonl.ExportRecord(Floats.JsOf(cfg.columns.floats), RowValues(cfg.columns, old(Value())))
      ensures records == old(records) + [record]
    {
      hide DeliveryRows, Jsonl.Body, Jsonl.Lines, RowValues, Jsonl.Checksum, Jsonl.Utf8, MaxVersion, Linked;
      var body, count := BuildJsonl();
      var bytes := Jsonl.Utf8(body);
      version := NextVersion();
      record := Jsonl.Record(Jsonl.Checksum(bytes), count, |bytes|);
      deliveries := deliveries + [Delivery(version, DeliveryRows(Value()))];
      records := records + [record];
    }

    /** The ledger: one row for each expert and status with payouts, then the totals of the rows by status. */
    method Ledger() returns (rows: seq<LedgerRow>, pending: Totals, withheld: Totals, paid: Totals, grand: int)
      ensures LedgerOf(rows, payouts)
      ensures pending == TotalsBy(payouts, M.Pending) && withheld == TotalsBy(payouts, M.Withheld)
      ensures paid == TotalsBy(payouts, M.Paid) && grand == Payouts.GrandTotal(payouts)
    {
      hide LedgerOf, HasRow, TotalsBy;
      rows := [];
      EmptyLedger();
      EmptyTotals();
      for i := 0 to |payouts|
        invariant LedgerOf(rows, payouts[..i])
        invariant forall status :: SumRows(rows, status) == TotalsBy(payouts[..i], status)
      {
        ghost var before := rows;
        var p := payouts[i];
        assert payouts[..i + 1][..i] == payouts[..i];
        assert payouts[..i + 1] == payouts[..i] + [p];
        var k := FindRow(rows, p.expert, p.status);
        if k == |rows| {
          rows := rows + [LedgerRow(p.expert, p.status, 0, 0)];
          AppendRow(before, rows[k]);
        }
        LedgerStep(before, rows, payouts[..i], p, k);
        TotalsStep(payouts[..i], p);
        SumUpdate(rows, k, rows[k].(count := rows[k].count + 1, cents := rows[k].cents + p.amount));
        rows := rows[k := rows[k].(count := rows[k].count + 1, cents := rows[k].cents + p.amount)];
      }
      assert payouts[..|payouts|] == payouts;
      pending, withheld, paid := Totals(0, 0), Totals(0, 0), Totals(0, 0);
      for i := 0 to |rows|
        invariant pending == SumRows(rows[..i], M.Pending)
        invariant withheld == SumRows(rows[..i], M.Withheld)
        invariant paid == SumRows(rows[..i], M.Paid)
      {
        assert rows[..i + 1][..i] == rows[..i];
        match rows[i].status {
          case Pending => pending := Added(pending, rows[i]);
          case Withheld => withheld := Added(withheld, rows[i]);
          case Paid => paid := Added(paid, rows[i]);
        }
      }
      assert rows[..|rows|] == rows;
      grand := pending.cents + withheld.cents + paid.cents;
      GrandParts(payouts);
    }
  }

  lemma Appended(ar: Floats.Arithmetic, xs: seq<Floats.Double64>, x: Floats.Double64)
    ensures Floats.PlainSum(ar, xs + [x]) == Floats.Add(ar, Floats.PlainSum(ar, xs), x)
  {
    assert (xs + [x])[..|xs|] == xs;
  }

  /** The row of this key, or the number of rows. */
  method FindRow(rows: seq<LedgerRow>, e: Id, status: M.PayoutStatus) returns (k: nat)
    ensures k <= |rows| && (k < |rows| ==> rows[k].expert == e && rows[k].status == status)
    ensures k == |rows| ==> forall j | 0 <= j < |rows| :: rows[j].expert != e || rows[j].status != status
  {
    k := 0;
    while k < |rows| && (rows[k].expert != e || rows[k].status != status)
      invariant k <= |rows| && forall j | 0 <= j < k :: rows[j].expert != e || rows[j].status != status
    {
      k := k + 1;
    }
  }

  predicate HasRow(rows: seq<LedgerRow>, e: Id, status: M.PayoutStatus) {
    exists k | 0 <= k < |rows| :: rows[k].expert == e && rows[k].status == status
  }

  ghost predicate DistinctRows(rows: seq<LedgerRow>) {
    forall j, k :: 0 <= j < k < |rows| ==> rows[j].expert != rows[k].expert || rows[j].status != rows[k].status
  }

  /** One row for each expert and status that has payouts, with their number and their total. */
  ghost predicate LedgerOf(rows: seq<LedgerRow>, payouts: seq<M.Payout>) {
    && DistinctRows(rows)
    && (forall k | 0 <= k < |rows| ::
          && rows[k].count == Payouts.Count(payouts, Payouts.OfExpert(rows[k].expert, rows[k].status)) > 0
          && rows[k].cents == Payouts.Cents(payouts, Payouts.OfExpert(rows[k].expert, rows[k].status)))
    && (forall e: Id, status :: !HasRow(rows, e, status) ==>
          && Payouts.Count(payouts, Payouts.OfExpert(e, status)) == 0
          && Payouts.Cents(payouts, Payouts.OfExpert(e, status)) == 0)
  }

  function Added(totals: Totals, row: LedgerRow): (r: Totals) {
    Totals(totals.count + row.count, totals.cents + row.cents)
  }

  function SumRows(rows: seq<LedgerRow>, status: M.PayoutStatus): (r: Totals) {
    if rows == [] then Totals(0, 0) else
      var rest, last := SumRows(rows[..|rows| - 1], status), rows[|rows| - 1];
      if last.status == status then Added(rest, last) else rest
  }

  lemma TotalsStep(payouts: seq<M.Payout>, p: M.Payout)
    ensures forall status ::
              TotalsBy(payouts + [p], status)
              == if status == p.status
                 then Totals(TotalsBy(payouts, status).count + 1, TotalsBy(payouts, status).cents + p.amount)
                 else TotalsBy(payouts, status)
  {
    assert (payouts + [p])[..|payouts|] == payouts;
  }

  lemma AppendRow(rows: seq<LedgerRow>, row: LedgerRow)
    requires row.count == 0 && row.cents == 0
    ensures forall status :: SumRows(rows + [row], status) == SumRows(rows, status)
  {
    assert (rows + [row])[..|rows|] == rows;
  }

  /** One more payout of the row's status. */
  lemma {:induction false} SumUpdate(rows: seq<LedgerRow>, k: nat, row: LedgerRow)
    requires k < |rows| && row.status == rows[k].status && row.count == rows[k].count + 1
    ensures forall status ::
              SumRows(rows[k := row], status)
              == if status == row.status
                 then Totals(SumRows(rows, status).count + 1, SumRows(rows, status).cents + row.cents - rows[k].cents)
                 else SumRows(rows, status)
  {
    var n := |rows| - 1;
    if k < n {
      SumUpdate(rows[..n], k, row);
      assert rows[k := row][..n] == rows[..n][k := row];
    } else {
      assert rows[k := row][..n] == rows[..n];
    }
  }

  lemma ExpertStep(payouts: seq<M.Payout>, p: M.Payout)
    ensures forall e: Id, status ::
              Payouts.Count(payouts + [p], Payouts.OfExpert(e, status))
              == Payouts.Count(payouts, Payouts.OfExpert(e, status))
                 + if e == p.expert && status == p.status then 1 else 0
    ensures forall e: Id, status ::
              Payouts.Cents(payouts + [p], Payouts.OfExpert(e, status))
              == Payouts.Cents(payouts, Payouts.OfExpert(e, status))
                 + if e == p.expert && status == p.status then p.amount else 0
  {
    assert (payouts + [p])[..|payouts|] == payouts;
  }

  /** Adding the payout p to its row keeps the ledger, whether the row was there or has just been made. */
  lemma LedgerStep(before: seq<LedgerRow>, rows: seq<LedgerRow>, payouts: seq<M.Payout>, p: M.Payout, k: nat)
    requires LedgerOf(before, payouts) && k < |rows| && rows[k].expert == p.expert && rows[k].status == p.status
    requires rows == before || (k == |before| && rows == before + [LedgerRow(p.expert, p.status, 0, 0)]
                                && forall j | 0 <= j < |before| ::
                                     before[j].expert != p.expert || before[j].status != p.status)
    ensures LedgerOf(rows[k := rows[k].(count := rows[k].count + 1, cents := rows[k].cents + p.amount)], payouts + [p])
  {
    hide Payouts.Count, Payouts.Cents;
    var row := rows[k].(count := rows[k].count + 1, cents := rows[k].cents + p.amount);
    var after := rows[k := row];
    ExpertStep(payouts, p);
    assert !HasRow(before, p.expert, p.status) ==> rows[k].count == 0 && rows[k].cents == 0;
    assert rows == before ==> HasRow(before, p.expert, p.status);
    forall j | 0 <= j < |after| && j != k
      ensures j < |before| && after[j] == before[j] && (before[j].expert != p.expert || before[j].status != p.status)
    {
    }
    forall e: Id, status | HasRow(before, e, status) || (e == p.expert && status == p.status)
      ensures HasRow(after, e, status)
    {
      if e == p.expert && status == p.status {
        assert after[k].expert == e && after[k].status == status;
      } else {
        var j :| 0 <= j < |before| && before[j].expert == e && before[j].status == status;
        assert after[j].expert == e && after[j].status == status;
      }
    }
  }

  lemma GrandParts(payouts: seq<M.Payout>)
    ensures Payouts.GrandTotal(payouts)
         == TotalsBy(payouts, M.Pending).cents + TotalsBy(payouts, M.Withheld).cents + TotalsBy(payouts, M.Paid).cents
  {
  }

  lemma EmptyTotals()
    ensures forall status :: TotalsBy([], status) == Totals(0, 0)
  {
  }

  lemma EmptyLedger()
    ensures LedgerOf([], [])
  {
  }
}
