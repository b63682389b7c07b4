/** Any sequence of requests, accepted or refused, and what holds along it. */
module Runs {
  import opened Wrappers
  import opened Model
  import opened Tables
  import opened TaskInvariant
  import opened Invariant
  import opened Payouts
  import opened Ledger
  import opened Books
  import opened Money
  import opened Leases
  import opened Versions
  import opened Tiers
  import opened Guard
  import opened Scoring
  import Attention
  import Calibration
  import Exports
  import Consensus
  import Delivery
  import Jsonl
  import Routing
  import Rubrics
  import Ops
  import Statuses
  import Windows
  import Bounds
  import Service

  /** A request and how long after the one before it arrives. */
  datatype Request = Request(wait: nat, event: Service.Event)

  datatype World = World(state: State, clock: int)

  const START: World := World(EMPTY, 0)

  ghost predicate Sound(cfg: Settings, w: World) {
    && Inv(cfg, w.state, w.clock)
    && PayoutsOk(cfg, w.state)
    && LeasesOk(w.state)
    && UntouchedCurrent(w.state)
    && ExportsNumbered(w.state.deliveries)
    && GradesScored(w.state)
    && TimesOrdered(w.state)
    && ChainOk(w.state.rubrics)
  }

  /** Export versions count up from one, and every object is what its row records. */
  ghost predicate ExportsNumbered(deliveries: seq<Model.Delivery>) {
    forall i | 0 <= i < |deliveries| :: deliveries[i].version == i + 1 && Delivery.Recorded(deliveries[i])
  }

  function Step(cfg: Settings, w: World, r: Request): (w': World)
    requires Linked(w.state)
  {
    World(Service.Commit(cfg, w.state, w.clock + 1 + r.wait, r.event), w.clock + 1 + r.wait)
  }

  predicate Accepted(cfg: Settings, w: World, r: Request)
    requires Linked(w.state)
  {
    Service.Apply(cfg, w.state, w.clock + 1 + r.wait, r.event).Ok?
  }

  lemma {:induction false} NumberedMax(deliveries: seq<Model.Delivery>)
    requires ExportsNumbered(deliveries)
    ensures Delivery.MaxVersion(deliveries) == |deliveries|
  {
    if deliveries != [] {
      NumberedMax(deliveries[..|deliveries| - 1]);
    }
  }

  lemma DeliveriesFrame(cfg: Settings, s: State, s': State, now: int, ev: Service.Event)
    requires Linked(s) && !ev.Export? && Service.Apply(cfg, s, now, ev) == Ok(s')
    ensures s'.deliveries == s.deliveries
  {
    hide Calibration.Update, Entries, Routing.Eligible, Routing.PickAmong, Consensus.NewRound;
    if ev.Resolve? {
      EntryIds(s.grades, s.reviews, ev.task);
    }
  }

  lemma AcceptedNumbered(cfg: Settings, s: State, s': State, now: int, ev: Service.Event)
    requires Linked(s) && ExportsNumbered(s.deliveries) && Service.Apply(cfg, s, now, ev) == Ok(s')
    ensures ExportsNumbered(s'.deliveries)
  {
    hide Delivery.RowValues, Delivery.Recorded;
    if ev.Export? {
      NumberedMax(s.deliveries);
      Delivery.NewRecorded(cfg, s);
    } else {
      DeliveriesFrame(cfg, s, s', now, ev);
    }
  }

  /** Every request, accepted or refused, keeps everything. */
  lemma StepSound(cfg: Settings, w: World, r: Request)
    requires Sound(cfg, w)
    ensures Sound(cfg, Step(cfg, w, r))
  {
    hide Inv, PayoutsOk, LeasesOk, UntouchedCurrent, ExportsNumbered, GradesScored, TimesOrdered, ChainOk,
      Service.Apply;
    InvLinked(cfg, w.state, w.clock);
    var s, now := w.state, w.clock + 1 + r.wait;
    CommitInv(cfg, s, w.clock, now, r.event);
    if Accepted(cfg, w, r) {
      var s' := Service.Apply(cfg, s, now, r.event).value;
      AcceptedBooks(cfg, s, s', w.clock, now, r.event);
      AcceptedLeases(cfg, s, s', now, r.event);
      AcceptedCurrent(cfg, s, s', w.clock, now, r.event);
      AcceptedNumbered(cfg, s, s', now, r.event);
      AcceptedScored(cfg, s, s', now, r.event);
      AcceptedTimes(cfg, s, s', w.clock, now, r.event);
      AcceptedChain(cfg, s, s', now, r.event);
    }
  }

  lemma InvLinked(cfg: Settings, s: State, clock: int)
    requires Inv(cfg, s, clock)
    ensures Linked(s)
  {
  }

  ghost function Run(cfg: Settings, w: World, rs: seq<Request>): (w': World)
    requires Sound(cfg, w)
    ensures Sound(cfg, w')
  {
    if rs == [] then w else
      var before := Run(cfg, w, rs[..|rs| - 1]);
      StepSound(cfg, before, rs[|rs| - 1]);
      Step(cfg, before, rs[|rs| - 1])
  }

  lemma StartSound(cfg: Settings)
    ensures Sound(cfg, START)
  {
  }

  /** What one step may change, accepted or not. */
  lemma StepEvolves(cfg: Settings, w: World, r: Request)
    requires Sound(cfg, w)
    ensures var s, s' := w.state, Step(cfg, w, r).state;
            s' == s || (PayoutsEvolve(cfg, s, s', r.event) && StatusEvolves(s, s', r.event))
  {
    hide Inv, PayoutsOk, LeasesOk, UntouchedCurrent, PayoutsEvolve, StatusEvolves, Service.Apply;
    InvLinked(cfg, w.state, w.clock);
    if Accepted(cfg, w, r) {
      AcceptedBooks(cfg, w.state, Step(cfg, w, r).state, w.clock, w.clock + 1 + r.wait, r.event);
    }
  }

  // ----- rubric versions --------------------------------------------------------------------------------

  lemma StepStays(cfg: Settings, w: World, q: Request, r: RubricId, t: TaskId)
    requires Sound(cfg, w) && r < |w.state.rubrics| && w.state.rubrics[r].supersededBy.Some? && t < |w.state.tasks|
    ensures var s, s' := w.state, Step(cfg, w, q).state;
            && r < |s'.rubrics| && s'.rubrics[r].supersededBy.Some? && t < |s'.tasks|
            && (s'.tasks[t].rubric == r <==> s.tasks[t].rubric == r)
  {
    hide Sound, Service.Apply;
    SoundInv(cfg, w);
    if Accepted(cfg, w, q) {
      SupersededStays(cfg, w.state, Step(cfg, w, q).state, w.clock + 1 + q.wait, q.event, r, t);
    }
  }

  lemma SoundInv(cfg: Settings, w: World)
    requires Sound(cfg, w)
    ensures Inv(cfg, w.state, w.clock) && Linked(w.state)
  {
  }

  /** Along a run the tasks on a superseded version are always the same ones. */
  lemma {:induction false} SupersededFixed(cfg: Settings, w: World, rs: seq<Request>, r: RubricId, t: TaskId)
    requires Sound(cfg, w) && r < |w.state.rubrics| && w.state.rubrics[r].supersededBy.Some? && t < |w.state.tasks|
    ensures var s, s' := w.state, Run(cfg, w, rs).state;
            && r < |s'.rubrics| && s'.rubrics[r].supersededBy.Some? && t < |s'.tasks|
            && (s'.tasks[t].rubric == r <==> s.tasks[t].rubric == r)
  {
    hide Sound, Step;
    if rs != [] {
      var before, last := Run(cfg, w, rs[..|rs| - 1]), rs[|rs| - 1];
      SupersededFixed(cfg, w, rs[..|rs| - 1], r, t);
      StepStays(cfg, before, last, r, t);
      SoundInv(cfg, before);
    }
  }

  /**
   * After an accepted publish of r, a task on r is on r in every later state if and only if it was not queued with
   * nothing received.
   */
  lemma PublishDecides(cfg: Settings, w: World, publish: Request, rs: seq<Request>, t: TaskId)
    requires Sound(cfg, w) && publish.event.Publish? && Linked(w.state) && Accepted(cfg, w, publish)
    requires t < |w.state.tasks| && w.state.tasks[t].rubric == publish.event.previous
    ensures Sound(cfg, Step(cfg, w, publish))
    ensures var task, s' := w.state.tasks[t], Run(cfg, Step(cfg, w, publish), rs).state;
            t < |s'.tasks|
            && (s'.tasks[t].rubric == task.rubric <==> !(task.status == Queued && task.received == 0))
  {
    hide Sound, Rubrics.Publish;
    StepSound(cfg, w, publish);
    SoundInv(cfg, w);
    var r := publish.event.previous;
    PublishTakes(w.state, r, publish.event.criteria, t);
    SupersededFixed(cfg, Step(cfg, w, publish), rs, r, t);
  }

  // ----- money ------------------------------------------------------------------------------------

  /** A closed period keeps its label, its count and its total, whatever happens later. */
  lemma {:induction false} PeriodsFinal(cfg: Settings, w: World, rs: seq<Request>, k: PeriodId)
    requires Sound(cfg, w) && k < |w.state.periods|
    ensures var s, s' := w.state, Run(cfg, w, rs).state;
            && k < |s'.periods| && s'.periods[k] == s.periods[k]
            && Cents(s'.payouts, InPeriod(k)) == Cents(s.payouts, InPeriod(k))
            && Count(s'.payouts, InPeriod(k)) == Count(s.payouts, InPeriod(k))
  {
    hide Inv, PayoutsOk, LeasesOk, UntouchedCurrent, PayoutsEvolve, StatusEvolves, Step;
    if rs != [] {
      var before, last := Run(cfg, w, rs[..|rs| - 1]), rs[|rs| - 1];
      PeriodsFinal(cfg, w, rs[..|rs| - 1], k);
      InvLinked(cfg, before.state, before.clock);
      StepEvolves(cfg, before, last);
      if Step(cfg, before, last).state != before.state {
        ClosedPeriodKept(cfg, before.state, Step(cfg, before, last).state, last.event, k);
      }
    }
  }

  /** In every reachable state the period totals sum to the ledger's paid total, and its rows to each status. */
  lemma ReachableLedger(cfg: Settings, rs: seq<Request>, status: PayoutStatus)
    ensures Sound(cfg, START)
    ensures var s := Run(cfg, START, rs).state;
            && CentsOverPeriods(s.payouts, |s.periods|) == Cents(s.payouts, InStatus(Paid))
            && CentsOverExperts(s.payouts, |s.experts|, status) == Cents(s.payouts, InStatus(status))
            && GrandTotal(s.payouts) == Cents(s.payouts, Everything)
  {
    hide Inv, PayoutsOk, LeasesOk, UntouchedCurrent;
    StartSound(cfg);
    var w := Run(cfg, START, rs);
    InvLinked(cfg, w.state, w.clock);
    BooksAgree(cfg, w.state, status);
    GrandIsEverything(w.state.payouts);
  }

  // ----- pauses -------------------------------------------------------------------------------------

  predicate Untouched(rs: seq<Request>, e: ExpertId) {
    forall i | 0 <= i < |rs| :: !(rs[i].event.SetStatus? && rs[i].event.expert == e)
  }

  /** The rows paid to e are those of the earlier state, unchanged. */
  ghost predicate PaidOnly(s: State, s': State, e: ExpertId) {
    forall i | 0 <= i < |s'.payouts| && s'.payouts[i].expert == e && s'.payouts[i].status == Paid ::
      i < |s.payouts| && s'.payouts[i] == s.payouts[i]
  }

  /** From the guard's pause until an administrator sets the expert's status nothing is paid to them. */
  lemma {:induction false} FrozenUnpaid(cfg: Settings, w: World, rs: seq<Request>, e: ExpertId)
    requires Sound(cfg, w) && Frozen(w.state, e) && Untouched(rs, e)
    ensures Frozen(Run(cfg, w, rs).state, e) && PaidOnly(w.state, Run(cfg, w, rs).state, e)
  {
    hide Inv, PayoutsOk, LeasesOk, UntouchedCurrent, PayoutsEvolve, StatusEvolves, Step, Frozen;
    if rs != [] {
      var before, last := Run(cfg, w, rs[..|rs| - 1]), rs[|rs| - 1];
      FrozenUnpaid(cfg, w, rs[..|rs| - 1], e);
      InvLinked(cfg, before.state, before.clock);
      StepEvolves(cfg, before, last);
      if Step(cfg, before, last).state != before.state {
        FrozenStays(cfg, before.state, Step(cfg, before, last).state, last.event, e);
      }
    }
  }

  /** The step in which the guard pauses an expert freezes them. */
  lemma GuardStep(cfg: Settings, w: World, r: Request)
    requires Sound(cfg, w) && r.event.Submit? && r.event.expert < |w.state.experts|
    requires w.state.experts[r.event.expert].status != Paused
    requires var s' := Step(cfg, w, r).state;
             r.event.expert < |s'.experts| && s'.experts[r.event.expert].status == Paused
    ensures Frozen(Step(cfg, w, r).state, r.event.expert)
  {
    hide Inv, PayoutsOk, LeasesOk, UntouchedCurrent, Frozen, Service.Apply;
    InvLinked(cfg, w.state, w.clock);
    GuardFreezes(cfg, w.state, Step(cfg, w, r).state, w.clock + 1 + r.wait, r.event);
  }

  lemma {:induction false} GuardKept(cfg: Settings, rs: seq<Request>, e: ExpertId)
    requires Untouched(rs, e)
    ensures Sound(cfg, START)
    ensures GuardOk(cfg, Run(cfg, START, rs).state, e)
  {
    hide Inv, PayoutsOk, LeasesOk, UntouchedCurrent, StatusEvolves, GuardOk, Service.Apply;
    StartSound(cfg);
    if rs == [] {
      NoGuard(cfg, e);
    } else {
      var before, last := Run(cfg, START, rs[..|rs| - 1]), rs[|rs| - 1];
      GuardKept(cfg, rs[..|rs| - 1], e);
      InvLinked(cfg, before.state, before.clock);
      if Accepted(cfg, before, last) {
        var s' := Step(cfg, before, last).state;
        AcceptedBooks(cfg, before.state, s', before.clock, before.clock + 1 + last.wait, last.event);
        AcceptedGuard(cfg, before.state, s', before.clock, before.clock + 1 + last.wait, last.event, e);
      }
    }
  }

  /**
   * The guard runs after failures only. Of the experts no administrator has touched whose rolling rate is too low on
   * enough checks it has paused exactly those who failed a check since there were enough.
   */
  lemma GuardOnFailures(cfg: Settings, rs: seq<Request>, e: ExpertId)
    requires Untouched(rs, e)
    ensures Sound(cfg, START)
    ensures var s := Run(cfg, START, rs).state;
            e < |s.experts| && Attention.Trips(cfg, s.checks, e) ==>
              && (s.experts[e].status == Active <==> PassedSinceMinimum(cfg, s.checks, e))
              && (s.experts[e].status == Paused <==> !PassedSinceMinimum(cfg, s.checks, e))
  {
    hide Sound, PassedSinceMinimum, Attention.Trips;
    StartSound(cfg);
    GuardKept(cfg, rs, e);
  }

  lemma NoGuard(cfg: Settings, e: ExpertId)
    ensures GuardOk(cfg, EMPTY, e)
  {
  }

  // ----- tiers ---------------------------------------------------------------------------------------

  lemma StepGrows(cfg: Settings, w: World, r: Request, e: ExpertId)
    requires Sound(cfg, w)
    ensures Grows(History(w.state, e), History(Step(cfg, w, r).state, e))
  {
    hide PayoutsOk, LeasesOk, UntouchedCurrent, History, Service.Apply, TasksOk;
    if Accepted(cfg, w, r) {
      var s', now := Step(cfg, w, r).state, w.clock + 1 + r.wait;
      if Grades(r.event) {
        SignalsGrow(cfg, w.state, s', w.clock, now, r.event, e);
      } else {
        SignalsStay(cfg, w.state, s', now, r.event, e);
      }
    }
  }

  /** Along a run the signals of an expert only grow, at the newest end. */
  lemma {:induction false} HistoryGrows(cfg: Settings, w: World, rs: seq<Request>, e: ExpertId)
    requires Sound(cfg, w)
    ensures Grows(History(w.state, e), History(Run(cfg, w, rs).state, e))
  {
    hide Inv, PayoutsOk, LeasesOk, UntouchedCurrent, History, Step;
    if rs != [] {
      var before, last := Run(cfg, w, rs[..|rs| - 1]), rs[|rs| - 1];
      HistoryGrows(cfg, w, rs[..|rs| - 1], e);
      StepGrows(cfg, before, last, e);
      InvLinked(cfg, before.state, before.clock);
      GrowsTransitive(History(w.state, e), History(before.state, e), History(Step(cfg, before, last).state, e));
    }
  }

  /** The tier moves a step has recorded. */
  ghost predicate Records(w: World, w': World, m: Move) {
    exists i | |w.state.moves| <= i < |w'.state.moves| :: w'.state.moves[i] == m
  }

  lemma RecordedJustified(cfg: Settings, w: World, r: Request, m: Move)
    requires Sound(cfg, w) && Records(w, Step(cfg, w, r), m)
    ensures Justified(cfg, Step(cfg, w, r).state, m)
  {
    hide PayoutsOk, LeasesOk, UntouchedCurrent, Justified, Service.Apply, TasksOk;
    if Accepted(cfg, w, r) {
      AcceptedMoves(cfg, w.state, Step(cfg, w, r).state, w.clock, w.clock + 1 + r.wait, r.event);
    }
  }

  predicate Opposite(a: Move, b: Move) {
    || (Rank(a.to) > Rank(a.from) && Rank(b.to) < Rank(b.from))
    || (Rank(a.to) < Rank(a.from) && Rank(b.to) > Rank(b.from))
  }

  /** A move up was made at the promote edge, a move down at the demote edge. */
  lemma Direction(cfg: Settings, s: State, m: Move)
    requires Justified(cfg, s, m)
    ensures Rank(m.to) > Rank(m.from) ==> Promotes(cfg, s, m.expert)
    ensures Rank(m.to) < Rank(m.from) ==> Demotes(cfg, s, m.expert)
  {
    hide Promotes, Demotes, Calibration.SignalFlags, Windows.Rate;
  }

  /** Two opposite moves of one expert, recorded at two steps of a run, lie at least (p - d) * m fresh signals apart. */
  lemma HysteresisDistance(cfg: Settings, w: World, first: Request, rs: seq<Request>, last: Request, a: Move, b: Move)
    requires Sound(cfg, w) && cfg.demoteAt < cfg.promoteAt
    requires Sound(cfg, Step(cfg, w, first)) && a.expert == b.expert && Opposite(a, b)
    requires Records(w, Step(cfg, w, first), a)
    requires var w2 := Run(cfg, Step(cfg, w, first), rs); Records(w2, Step(cfg, w2, last), b)
    ensures var w1 := Step(cfg, w, first);
            var w3 := Step(cfg, Run(cfg, w1, rs), last);
            (|History(w3.state, a.expert)| - |History(w1.state, a.expert)|) as real
            >= (cfg.promoteAt - cfg.demoteAt) * cfg.calibrationMinSamples as real
  {
    hide Inv, PayoutsOk, LeasesOk, UntouchedCurrent, GradesScored, History, Records, Step, Promotes, Demotes,
      Justified, Grows;
    InvLinked(cfg, w.state, w.clock);
    var w1 := Step(cfg, w, first);
    var w2 := Run(cfg, w1, rs);
    InvLinked(cfg, w2.state, w2.clock);
    var w3 := Step(cfg, w2, last);
    RecordedJustified(cfg, w, first, a);
    RecordedJustified(cfg, w2, last, b);
    HistoryGrows(cfg, w1, rs, a.expert);
    StepGrows(cfg, w2, last, a.expert);
    GrowsTransitive(History(w1.state, a.expert), History(w2.state, a.expert), History(w3.state, a.expert));
    Direction(cfg, w1.state, a);
    Direction(cfg, w3.state, b);
    OppositeEdges(cfg, w1.state, w3.state, a.expert);
  }

  // ----- termination -----------------------------------------------------------------------------------

  /** How many submissions of the run were accepted. */
  ghost function Submissions(cfg: Settings, w: World, rs: seq<Request>): (n: nat)
    requires Sound(cfg, w)
  {
    if rs == [] then 0 else
      var before, last := Run(cfg, w, rs[..|rs| - 1]), rs[|rs| - 1];
      Submissions(cfg, w, rs[..|rs| - 1]) + if last.event.Submit? && Accepted(cfg, before, last) then 1 else 0
  }

  lemma GradesGrow(cfg: Settings, s: State, s': State, now: int, ev: Service.Event)
    requires Linked(s) && Service.Apply(cfg, s, now, ev) == Ok(s')
    ensures |s'.grades| == |s.grades| + if ev.Submit? then 1 else 0
  {
    hide Calibration.Update, TaskEntries;
    if ev.Resolve? {
      EntryIds(s.grades, s.reviews, ev.task);
    } else if ev.Submit? {
      SubmitRows(cfg, s, s', now, ev.expert, ev.task, ev.scores, ev.given);
    }
  }

  lemma {:induction false} SubmissionsCounted(cfg: Settings, w: World, rs: seq<Request>)
    requires Sound(cfg, w)
    ensures Submissions(cfg, w, rs) == |Run(cfg, w, rs).state.grades| - |w.state.grades|
  {
    hide Inv, PayoutsOk, LeasesOk, UntouchedCurrent, Service.Apply;
    if rs != [] {
      var before, last := Run(cfg, w, rs[..|rs| - 1]), rs[|rs| - 1];
      SubmissionsCounted(cfg, w, rs[..|rs| - 1]);
      InvLinked(cfg, before.state, before.clock);
      if Accepted(cfg, before, last) {
        GradesGrow(cfg, before.state, Step(cfg, before, last).state, before.clock + 1 + last.wait, last.event);
      }
    }
  }

  /** A run that ends with T tasks and E experts has accepted at most T * E submissions, and no more reviews. */
  lemma SubmissionsBounded(cfg: Settings, rs: seq<Request>)
    ensures Sound(cfg, START)
    ensures var s := Run(cfg, START, rs).state;
            |s.reviews| <= Submissions(cfg, START, rs) <= |s.tasks| * |s.experts|
  {
    hide Inv, PayoutsOk, LeasesOk, UntouchedCurrent;
    StartSound(cfg);
    var w := Run(cfg, START, rs);
    SubmissionsCounted(cfg, START, rs);
    Bounds.WorkBounded(cfg, w.state, w.clock);
  }

  // ----- how often one expert's work sends a task back -----------------------------------------------------

  /** The request is an accepted rejection of the expert's grade of the task. */
  predicate Rejects(cfg: Settings, w: World, r: Request, t: TaskId, e: ExpertId)
    requires Linked(w.state)
  {
    && r.event.ReviewGrade? && r.event.decision == Reject && r.event.grade < |w.state.grades|
    && w.state.grades[r.event.grade].task == t && w.state.grades[r.event.grade].expert == e
    && Accepted(cfg, w, r)
  }

  /** How often in the run a grade of the expert's on the task was rejected by a reviewer. */
  ghost function Requeues(cfg: Settings, w: World, rs: seq<Request>, t: TaskId, e: ExpertId): (n: nat)
    requires Sound(cfg, w)
  {
    if rs == [] then 0 else
      var before, last := Run(cfg, w, rs[..|rs| - 1]), rs[|rs| - 1];
      Requeues(cfg, w, rs[..|rs| - 1], t, e) + if Rejects(cfg, before, last, t, e) then 1 else 0
  }

  /** A grade of the expert's on the task has been reviewed. */
  ghost predicate Judged(s: State, t: TaskId, e: ExpertId) {
    exists g | 0 <= g < |s.grades| :: s.grades[g].task == t && s.grades[g].expert == e && DecisionOf(s.reviews, g).Some?
  }

  /** Grades and reviews are only added. */
  lemma TablesGrow(cfg: Settings, s: State, s': State, now: int, ev: Service.Event) returns (rows: seq<Review>)
    requires Linked(s) && Service.Apply(cfg, s, now, ev) == Ok(s')
    ensures |s.grades| <= |s'.grades| && s'.grades[..|s.grades|] == s.grades && s'.reviews == s.reviews + rows
  {
    hide Calibration.Update, TaskEntries, Routing.Eligible, Routing.PickAmong, Consensus.NewRound;
    rows := [];
    if ev.Submit? {
      SubmitRows(cfg, s, s', now, ev.expert, ev.task, ev.scores, ev.given);
    } else if ev.ReviewGrade? {
      ReviewRows(cfg, s, s', now, ev.grade, ev.decision);
      rows := [Review(ev.grade, ev.decision, now)];
    } else if ev.Resolve? {
      ResolveRows(cfg, s, s', now, ev.task, ev.delivered);
      rows := VerdictRows(TaskEntries(s, ev.task), ev.delivered, now);
    } else {
      SignalTables(cfg, s, s', now, ev);
      GradesGrow(cfg, s, s', now, ev);
      OtherGrades(cfg, s, s', now, ev);
    }
  }

  lemma OtherGrades(cfg: Settings, s: State, s': State, now: int, ev: Service.Event)
    requires Linked(s) && !ev.Submit? && Service.Apply(cfg, s, now, ev) == Ok(s')
    ensures s'.grades == s.grades
  {
    OtherScored(cfg, s, s', now, ev);
  }

  lemma {:induction false} DecisionKept(reviews: seq<Review>, rows: seq<Review>, g: GradeId)
    requires DecisionOf(reviews, g).Some?
    ensures DecisionOf(reviews + rows, g).Some?
  {
    if rows == [] {
      assert reviews + rows == reviews;
    } else {
      var front, last := rows[..|rows| - 1], rows[|rows| - 1];
      DecisionKept(reviews, front, g);
      assert reviews + rows == (reviews + front) + [last];
      DecisionAppend(reviews + front, last, g);
    }
  }

  lemma JudgedKept(s: State, s': State, rows: seq<Review>, t: TaskId, e: ExpertId)
    requires Judged(s, t, e) && s'.reviews == s.reviews + rows
    requires |s.grades| <= |s'.grades| && s'.grades[..|s.grades|] == s.grades
    ensures Judged(s', t, e)
  {
    hide DecisionOf;
    var g :| 0 <= g < |s.grades| && s.grades[g].task == t && s.grades[g].expert == e && DecisionOf(s.reviews, g).Some?;
    DecisionKept(s.reviews, rows, g);
    assert s'.grades[g] == s'.grades[..|s.grades|][g];
  }

  /** A second rejection is refused; the first leaves the grade reviewed. */
  lemma RejectsOnce(cfg: Settings, w: World, r: Request, t: TaskId, e: ExpertId)
    requires Sound(cfg, w) && Linked(w.state) && Rejects(cfg, w, r, t, e)
    ensures !Judged(w.state, t, e) && Judged(Step(cfg, w, r).state, t, e)
  {
    hide PayoutsOk, LeasesOk, UntouchedCurrent, GradesScored, TasksOk, Calibration.Update;
    var s, s', g := w.state, Step(cfg, w, r).state, r.event.grade;
    ReviewRows(cfg, s, s', w.clock + 1 + r.wait, g, Reject);
    DecisionAppend(s.reviews, Review(g, Reject, w.clock + 1 + r.wait), g);
    assert DecisionOf(s'.reviews, g).Some? && s'.grades[g] == s.grades[g];
  }

  lemma {:induction false} RequeuesJudged(cfg: Settings, w: World, rs: seq<Request>, t: TaskId, e: ExpertId)
    requires Sound(cfg, w)
    ensures Requeues(cfg, w, rs, t, e)
         <= (if Judged(Run(cfg, w, rs).state, t, e) then 1 else 0) - (if Judged(w.state, t, e) then 1 else 0)
  {
    hide Sound, Judged, Service.Apply, Rejects;
    if rs != [] {
      var before, last := Run(cfg, w, rs[..|rs| - 1]), rs[|rs| - 1];
      RequeuesJudged(cfg, w, rs[..|rs| - 1], t, e);
      SoundInv(cfg, before);
      if Rejects(cfg, before, last, t, e) {
        RejectsOnce(cfg, before, last, t, e);
      } else if Accepted(cfg, before, last) && Judged(before.state, t, e) {
        var after := Step(cfg, before, last).state;
        var rows := TablesGrow(cfg, before.state, after, before.clock + 1 + last.wait, last.event);
        JudgedKept(before.state, after, rows, t, e);
      }
    }
  }

  /** Along any run a task is sent back to the queue at most once because of each expert. */
  lemma RequeuesBounded(cfg: Settings, rs: seq<Request>, t: TaskId, e: ExpertId)
    ensures Sound(cfg, START)
    ensures Requeues(cfg, START, rs, t, e) <= 1
  {
    hide Sound, Judged;
    StartSound(cfg);
    RequeuesJudged(cfg, START, rs, t, e);
  }

  // ----- leases, statuses and deliveries in every reachable state -----------------------------------------

  lemma {:induction false} GraderInHistory(h: seq<LeaseEvent>, k: nat) returns (i: nat)
    requires k < |Graders(h)|
    ensures i < |h| && h[i] == Graded(Graders(h)[k])
  {
    if k == |Graders(h)| - 1 && h[|h| - 1].Graded? {
      i := |h| - 1;
    } else {
      i := GraderInHistory(h[..|h| - 1], k);
    }
  }

  /** Every grade was submitted on a lease of its author that nothing had touched since it was granted. */
  lemma GradeHasGrant(cfg: Settings, s: State, clock: int, g: GradeId) returns (i: nat)
    requires Inv(cfg, s, clock) && g < |s.grades|
    ensures var h, e := s.tasks[s.grades[g].task].history, s.grades[g].expert;
            0 < i < |h| && h[i] == Graded(e) && h[i - 1] == Granted(e)
  {
    var t := s.grades[g].task;
    assert TaskOk(cfg, s.tasks[t], TaskEntries(s, t), RoundOf(s.rounds, t));
    var k := EntryPresent(s.grades, s.reviews, g);
    assert Authors(TaskEntries(s, t))[k] == s.grades[g].expert;
    i := GraderInHistory(s.tasks[t].history, k);
    GradeFollowsGrant(s.tasks[t].history, i);
  }

  /** The lease columns are set together, and the assignments of a task are all accounted for. */
  lemma ReachableLeases(cfg: Settings, rs: seq<Request>, t: TaskId)
    ensures Sound(cfg, START)
    ensures var s := Run(cfg, START, rs).state;
            && SumGrants(s.tasks) == SumServed(s.experts) == |s.served|
            && (t < |s.tasks| ==>
                  var task := s.tasks[t];
                  && (task.status == Assigned <==> task.holder.Some?)
                  && (task.holder.Some? <==> task.assignedAt.Some?) && (task.holder.Some? <==> task.lease.Some?)
                  && Grants(task.history)
                     == Releases(task.history) + task.reclaims + |TaskEntries(s, t)|
                        + if task.holder.Some? then 1 else 0)
  {
    hide PayoutsOk, UntouchedCurrent, ExportsNumbered;
    StartSound(cfg);
    var s := Run(cfg, START, rs).state;
    ServesBalance(s);
    if t < |s.tasks| {
      assert TaskOk(cfg, s.tasks[t], TaskEntries(s, t), RoundOf(s.rounds, t));
      GrantsAccounted(s.tasks[t].history);
      assert |Graders(s.tasks[t].history)| == |TaskEntries(s, t)|;
    }
  }

  /** The backlog is the adjudication count, and the rows of an export account for every approved task. */
  lemma ReachableDeliveries(cfg: Settings, rs: seq<Request>)
    ensures Sound(cfg, START)
    ensures var s := Run(cfg, START, rs).state;
            && Ops.Backlog(s.rounds, |s.tasks|) == Ops.CountStatus(s.tasks, Adjudication)
            && |Delivery.Rows(s)| + Ops.CountUndelivered(s, |s.tasks|) == Ops.CountApproved(s.tasks, |s.tasks|)
  {
    hide Inv, PayoutsOk, LeasesOk, UntouchedCurrent;
    StartSound(cfg);
    var w := Run(cfg, START, rs);
    InvLinked(cfg, w.state, w.clock);
    Statuses.BacklogIsAdjudication(cfg, w.state, w.clock);
    Exports.RowsAccounted(cfg, w.state, w.clock);
  }

  /** Every object a run has stored is the one its row records, and reading it back verifies. */
  lemma ReachableExports(cfg: Settings, rs: seq<Request>, i: nat)
    ensures Sound(cfg, START)
    ensures var s := Run(cfg, START, rs).state;
            i < |s.deliveries| ==>
              var d := s.deliveries[i];
              && d.version == i + 1 && d.record.rowCount == |d.rows|
              && Jsonl.Verifies(d.record, d.body)
  {
    hide Inv, PayoutsOk, LeasesOk, UntouchedCurrent, GradesScored, TimesOrdered, ChainOk, Jsonl.Verifies;
    StartSound(cfg);
  }

  lemma AcceptedExports(cfg: Settings, s: State, s': State, now: int, ev: Service.Event)
    requires Linked(s) && Service.Apply(cfg, s, now, ev) == Ok(s')
    ensures s'.deliveries == s.deliveries + if ev.Export? then [Delivery.NewDelivery(cfg, s)] else []
  {
    hide Delivery.NewDelivery;
    if !ev.Export? {
      DeliveriesFrame(cfg, s, s', now, ev);
    }
  }

  /** No later request changes an export: its rows, its object and its record stay what they were. */
  lemma {:induction false} ExportsFinal(cfg: Settings, w: World, rs: seq<Request>)
    requires Sound(cfg, w)
    ensures w.state.deliveries <= Run(cfg, w, rs).state.deliveries
  {
    hide Sound, Service.Apply, Delivery.NewDelivery;
    if rs != [] {
      var before, last := Run(cfg, w, rs[..|rs| - 1]), rs[|rs| - 1];
      ExportsFinal(cfg, w, rs[..|rs| - 1]);
      SoundInv(cfg, before);
      if Accepted(cfg, before, last) {
        AcceptedExports(cfg, before.state, Step(cfg, before, last).state, before.clock + 1 + last.wait, last.event);
      }
    }
  }
}
