/** Runs of the port and the service side by side over the domain they share. */
module LockStepRuns {
  import opened Wrappers
  import opened Model
  import opened Tables
  import opened Invariant
  import opened LockStep
  import Scores
  import Port
  import Routing
  import Grading
  import Consensus
  import Calibration
  import Payouts
  import Experts
  import Delivery
  import Service
  import Tiers
  import Windows

  /** What can be asked of both. */
  datatype Op =
    | AddExpert(tags: set<Tag>, tier: Tier, rate: Option<int>)
    | AddTask(input: Service.TaskInput)
    | PutCard(tier: Tier, kind: string, cents: int)
    | Claim(expert: ExpertId)
    | Release(expert: ExpertId, task: TaskId)
    | Submit(expert: ExpertId, task: TaskId, scores: ScoreSheet)
    | Review(grade: GradeId, decision: Decision)
    | Reinstate(expert: ExpertId)
    | Close(name: string)
    | Export

  /** What the caller hears: done, a task served, an empty queue, or an error. */
  datatype Outcome = Done | Served(task: TaskId) | NothingToDo | Refused(error: Error)

  function ToEvent(op: Op): (ev: Service.Event) {
    match op
    case AddExpert(tags, tier, rate) => Service.CreateExpert(tags, tier, rate)
    case AddTask(input) => Service.CreateTask(input)
    case PutCard(tier, kind, cents) => Service.PutRateCard(tier, kind, cents)
    case Claim(e) => Service.ClaimNext(e)
    case Release(e, t) => Service.Release(e, t)
    case Submit(e, t, scores) => Service.Submit(e, t, scores, None)
    case Review(g, d) => Service.ReviewGrade(g, d)
    case Reinstate(e) => Service.SetStatus(e, Active)
    case Close(name) => Service.ClosePeriod(name)
    case Export => Service.Export
  }

  function ServiceOutcome(cfg: Settings, s: State, now: int, op: Op): (r: Outcome)
    requires Linked(s)
  {
    match Service.Apply(cfg, s, now, ToEvent(op))
    case Err(error) => Refused(error)
    case Ok(_) =>
      if op.Claim? && op.expert < |s.experts| then
        match Routing.ClaimNext(cfg, s, now, op.expert)
        case Ok((_, Some(t))) => Served(t)
        case _ => NothingToDo
      else Done
  }

  function Heard(r: Result<Port.Sim>, p: Port.Sim): (h: (Port.Sim, Outcome)) {
    match r
    case Ok(p') => (p', Done)
    case Err(error) => (p, Refused(error))
  }

  function PortTask(input: Service.TaskInput): (t: Port.Task) {
    Port.NewTask(input.tags, input.kind, input.minTier, input.priority, Ms(input.deadline), input.required,
                 input.golden,
                 if input.expected == [] then None else Some(input.expected))
  }

  /** The same request made of the port; its methods take experts that exist. */
  function PortStep(cfg: Settings, p: Port.Sim, now: int, op: Op): (h: (Port.Sim, Outcome))
    requires (op.Claim? || op.Submit? || op.Reinstate?) ==> op.expert < |p.experts|
  {
    match op
    case AddExpert(tags, tier, rate) =>
      (p.(experts := p.experts + [Port.Expert(tags, tier, rate, Active, 0)]), Done)
    case AddTask(input) => Heard(Port.CreateTask(p, PortTask(input)), p)
    case PutCard(tier, kind, cents) => (p.(cards := Port.CardsPut(p.cards, [((tier, kind), cents)])), Done)
    case Claim(e) =>
      (match Port.ClaimNext(cfg, p, now, e)
       case Ok((p', Some(t))) => (p', Served(t))
       case Ok((p', None)) => (p', NothingToDo)
       case Err(error) => (p, Refused(error)))
    case Release(e, t) => Heard(Port.Release(p, e, t), p)
    case Submit(e, t, scores) => Heard(Port.Submit(cfg, p, now, e, t, scores), p)
    case Review(g, d) =>
      var r := Port.Review(p, g, d);
      (r.0, if r.1 == None then Done else Refused(r.1.value))
    case Reinstate(e) => (Port.Reinstated(p, e), Done)
    case Close(name) => Heard(Port.ClosePeriod(p, name), p)
    case Export => (Port.Export(p), Done)
  }

  /**
   * What the shared domain asks of a request: inputs both accept, experts that exist, rates, reinstatement after a
   * pause.
   */
  predicate InDomain(s: State, op: Op) {
    match op
    case AddExpert(tags, _, _) => tags != {}
    case AddTask(input) =>
      input.tags != {} && input.required == 1 && input.rubric == 0 && (input.golden ==> input.expected != [])
    case PutCard(_, _, cents) => 0 <= cents
    case Claim(e) => e < |s.experts|
    case Release(_, _) => true
    case Submit(e, _, _) => e < |s.experts|
    case Review(g, d) => d == Approve && g < |s.grades| ==> Rated(s, g)
    case Reinstate(e) => e < |s.experts| && s.experts[e].status == Paused
    case Close(_) => true
    case Export => true
  }

  // ----- the domain is kept ---------------------------------------------------------------------------------

  /** Leases, statuses and grades aside, the tasks and the rubrics are those of before. */
  ghost predicate SharedFrame(s: State, s': State) {
    && s'.rubrics == s.rubrics && |s'.tasks| == |s.tasks|
    && |s.grades| <= |s'.grades| && s'.grades[..|s.grades|] == s.grades
    && (forall t | 0 <= t < |s.tasks| ::
          && s'.tasks[t].required == s.tasks[t].required && s'.tasks[t].rubric == s.tasks[t].rubric
          && s'.tasks[t].golden == s.tasks[t].golden && s'.tasks[t].expected == s.tasks[t].expected
          && (s'.tasks[t].pinned == s.tasks[t].pinned || s'.tasks[t].pinned == Some(s.tasks[t].rubric))
          && (s'.tasks[t].holder == s.tasks[t].holder || s'.tasks[t].holder == None
              || !HasGraded(s'.grades, t, s'.tasks[t].holder.value)))
    && (forall g | |s.grades| <= g < |s'.grades| ::
          s'.grades[g].task < |s'.tasks| && s'.tasks[s'.grades[g].task].holder == None)
  }

  lemma StillUngraded(s: State, s': State, t: TaskId, e: ExpertId)
    requires SharedFrame(s, s') && t < |s.tasks| && s'.tasks[t].holder.Some?
    ensures HasGraded(s'.grades, t, e) ==> HasGraded(s.grades, t, e)
  {
    if HasGraded(s'.grades, t, e) {
      var g :| 0 <= g < |s'.grades| && s'.grades[g].task == t && s'.grades[g].expert == e;
      assert g < |s.grades| && s.grades[g] == s'.grades[..|s.grades|][g];
    }
  }

  lemma FrameShared(cfg: Settings, s: State, s': State, clock: int, now: int)
    requires Shared(cfg, s, clock) && SharedFrame(s, s') && Inv(cfg, s', now)
    ensures Shared(cfg, s', now)
  {
    hide Inv, HasGraded;
    forall t | 0 <= t < |s'.tasks| ensures SharedTask(s', s'.tasks[t]) {
      assert SharedTask(s, s.tasks[t]);
    }
    forall t | 0 <= t < |s'.tasks| && s'.tasks[t].holder.Some?
      ensures !HasGraded(s'.grades, t, s'.tasks[t].holder.value)
    {
      StillUngraded(s, s', t, s'.tasks[t].holder.value);
    }
  }

  lemma ClaimFrame(cfg: Settings, s: State, s': State, now: int, e: ExpertId)
    requires Linked(s) && e < |s.experts| && Service.Apply(cfg, s, now, Service.ClaimNext(e)) == Ok(s')
    ensures SharedFrame(s, s')
  {
    hide Routing.PickAmong, HasGraded;
    var s1 := Routing.ReclaimExpired(s, now);
    var pick := Routing.Choice(cfg, s1, e);
    if pick.Some? {
      assert !HasGraded(s1.grades, pick.value, e);
    }
  }

  lemma SubmitFrame(cfg: Settings, s: State, s': State, now: int, e: ExpertId, t: TaskId, scores: ScoreSheet)
    requires Linked(s) && Service.Apply(cfg, s, now, Service.Submit(e, t, scores, None)) == Ok(s')
    ensures SharedFrame(s, s')
  {
    hide Grading.Submit, Consensus.NewRound, Grading.ValidScores, HasGraded, UnrejectedOf, Scores.Weighted;
    SubmitRows(cfg, s, s', now, e, t, scores, None);
  }

  lemma OtherFrame(cfg: Settings, s: State, s': State, now: int, op: Op)
    requires Linked(s) && Service.Apply(cfg, s, now, ToEvent(op)) == Ok(s') && !op.Claim? && !op.Submit? && !op.AddTask?
    ensures SharedFrame(s, s')
  {
    hide Grading.ReviewGrade, HasGraded, Payouts.Restate, Payouts.CloseRow, Delivery.NewDelivery, Routing.Eligible,
      Payouts.ClosedRows, Calibration.Update, Consensus.NewRound;
    match op {
      case Review(g, d) => ReviewRows(cfg, s, s', now, g, d);
      case _ =>
    }
  }

  lemma AddTaskShared(cfg: Settings, s: State, s': State, clock: int, now: int, op: Op)
    requires Shared(cfg, s, clock) && op.AddTask? && InDomain(s, op) && Linked(s)
    requires Service.Apply(cfg, s, now, ToEvent(op)) == Ok(s') && Inv(cfg, s', now)
    ensures Shared(cfg, s', now)
  {
    hide Inv, HasGraded;
  }

  lemma SharedKept(cfg: Settings, s: State, clock: int, now: int, op: Op)
    requires Shared(cfg, s, clock) && clock < now && InDomain(s, op)
    ensures Linked(s) && Shared(cfg, Service.Commit(cfg, s, now, ToEvent(op)), now)
  {
    hide Inv, Shared, Service.Apply, SharedFrame;
    SharedInv(cfg, s, clock);
    CommitInv(cfg, s, clock, now, ToEvent(op));
    var r := Service.Apply(cfg, s, now, ToEvent(op));
    if r.Err? {
      SharedLater(cfg, s, clock, now);
    } else if op.AddTask? {
      AddTaskShared(cfg, s, r.value, clock, now, op);
    } else {
      if op.Claim? {
        ClaimFrame(cfg, s, r.value, now, op.expert);
      } else if op.Submit? {
        SubmitFrame(cfg, s, r.value, now, op.expert, op.task, op.scores);
      } else {
        OtherFrame(cfg, s, r.value, now, op);
      }
      FrameShared(cfg, s, r.value, clock, now);
    }
  }

  lemma SharedInv(cfg: Settings, s: State, clock: int)
    requires Shared(cfg, s, clock)
    ensures Inv(cfg, s, clock) && Linked(s)
  {
  }

  lemma SharedLater(cfg: Settings, s: State, clock: int, now: int)
    requires Shared(cfg, s, clock) && Inv(cfg, s, now)
    ensures Shared(cfg, s, now)
  {
    hide Inv;
  }

  // ----- one step --------------------------------------------------------------------------------------------

  lemma SeedView(cfg: Settings, s: State, clock: int, now: int, op: Op)
    requires Shared(cfg, s, clock) && InDomain(s, op) && Linked(s) && (op.AddExpert? || op.AddTask? || op.PutCard?)
    ensures PortStep(cfg, View(s), 1000 * now, op)
         == (View(Service.Commit(cfg, s, now, ToEvent(op))), ServiceOutcome(cfg, s, now, op))
  {
    hide Inv, HasGraded;
    var s' := Service.Commit(cfg, s, now, ToEvent(op));
    match op {
      case AddExpert(tags, tier, rate) =>
        assert View(s').experts == View(s).experts + [Port.Expert(tags, tier, rate, Active, 0)];
      case AddTask(input) =>
        assert View(s').tasks == View(s).tasks + [PortTask(input)];
      case PutCard(tier, kind, cents) =>
        PutOne(s.cards, (tier, kind), cents);
    }
  }

  lemma PutOne(cards: map<(Tier, string), int>, key: (Tier, string), cents: int)
    ensures Port.CardsPut(cards, [(key, cents)]) == cards[key := cents]
  {
    assert [(key, cents)][..0] == [];
  }

  lemma WorkView(cfg: Settings, s: State, clock: int, now: int, op: Op)
    requires Shared(cfg, s, clock) && InDomain(s, op) && Linked(s) && NoMove(s, Service.Apply(cfg, s, now, ToEvent(op)))
    requires op.Claim? || op.Release? || op.Submit?
    ensures PortStep(cfg, View(s), 1000 * now, op)
         == (View(Service.Commit(cfg, s, now, ToEvent(op))), ServiceOutcome(cfg, s, now, op))
  {
    hide Shared, View, Routing.ClaimNext, Port.ClaimNext, Routing.Release, Port.Release, Grading.Submit, Port.Submit;
    ViewSizes(s);
    match op {
      case Claim(e) => ClaimView(cfg, s, now, e);
      case Release(e, t) => ReleaseView(s, e, t);
      case Submit(e, t, scores) => SubmitView(cfg, s, clock, now, e, t, scores);
    }
  }

  lemma ViewSizes(s: State)
    ensures |View(s).experts| == |s.experts|
  {
  }

  lemma ManageView(cfg: Settings, s: State, clock: int, now: int, op: Op)
    requires Shared(cfg, s, clock) && InDomain(s, op) && Linked(s) && NoMove(s, Service.Apply(cfg, s, now, ToEvent(op)))
    requires op.Review? || op.Reinstate? || op.Close? || op.Export?
    ensures PortStep(cfg, View(s), 1000 * now, op)
         == (View(Service.Commit(cfg, s, now, ToEvent(op))), ServiceOutcome(cfg, s, now, op))
  {
    hide Shared, View, Grading.ReviewGrade, Port.Review, Experts.SetStatus, Port.Reinstated, Payouts.ClosePeriod,
      Port.ClosePeriod, Delivery.Export, Port.Export, Rated;
    ViewSizes(s);
    match op {
      case Review(g, d) => ReviewView(cfg, s, clock, now, g, d);
      case Reinstate(e) => ReinstateView(s, e);
      case Close(name) => CloseView(s, name);
      case Export => ExportView(cfg, s, clock);
    }
  }

  /** One request, the same answer, and corresponding states after it. */
  lemma StepView(cfg: Settings, s: State, clock: int, now: int, op: Op)
    requires Shared(cfg, s, clock) && InDomain(s, op) && clock < now
    requires Linked(s) && Service.Commit(cfg, s, now, ToEvent(op)).moves == s.moves
    ensures ((op.Claim? || op.Submit? || op.Reinstate?) ==> op.expert < |View(s).experts|)
    ensures PortStep(cfg, View(s), 1000 * now, op)
         == (View(Service.Commit(cfg, s, now, ToEvent(op))), ServiceOutcome(cfg, s, now, op))
    ensures Shared(cfg, Service.Commit(cfg, s, now, ToEvent(op)), now)
  {
    hide Shared, View, Service.Apply, PortStep, ServiceOutcome;
    ViewSizes(s);
    SharedKept(cfg, s, clock, now, op);
    assert NoMove(s, Service.Apply(cfg, s, now, ToEvent(op)));
    if op.AddExpert? || op.AddTask? || op.PutCard? {
      SeedView(cfg, s, clock, now, op);
    } else if op.Claim? || op.Release? || op.Submit? {
      WorkView(cfg, s, clock, now, op);
    } else {
      ManageView(cfg, s, clock, now, op);
    }
  }

  // ----- runs --------------------------------------------------------------------------------------------------

  datatype Timed = Timed(wait: nat, op: Op)

  /** The service's run: the state, the clock and the answers given so far. */
  datatype Trace = Trace(state: State, clock: int, outcomes: seq<Outcome>)

  datatype PortTrace = PortTrace(sim: Port.Sim, outcomes: seq<Outcome>)

  ghost function ServiceRun(cfg: Settings, w: Trace, ops: seq<Timed>): (w': Trace) {
    if ops == [] then w else
      var b, x := ServiceRun(cfg, w, ops[..|ops| - 1]), ops[|ops| - 1];
      var now := b.clock + 1 + x.wait;
      if !Linked(b.state) then b else
        Trace(Service.Commit(cfg, b.state, now, ToEvent(x.op)), now,
              b.outcomes + [ServiceOutcome(cfg, b.state, now, x.op)])
  }

  /** Every request of the run is in the shared domain when it is made. */
  ghost predicate InDomainRun(cfg: Settings, w: Trace, ops: seq<Timed>) {
    forall n | 0 <= n < |ops| :: InDomain(ServiceRun(cfg, w, ops[..n]).state, ops[n].op)
  }

  /** No request of the run moves a tier. */
  ghost predicate NoMoves(cfg: Settings, w: Trace, ops: seq<Timed>) {
    forall n | 0 < n <= |ops| :: ServiceRun(cfg, w, ops[..n]).state.moves == w.state.moves
  }

  /** The port's run of the same requests at the same times. */
  ghost function PortRun(cfg: Settings, q: PortTrace, clock: int, ops: seq<Timed>): (r: (PortTrace, int)) {
    if ops == [] then (q, clock) else
      var (b, at) := PortRun(cfg, q, clock, ops[..|ops| - 1]);
      var x := ops[|ops| - 1];
      var now := at + 1 + x.wait;
      if (x.op.Claim? || x.op.Submit? || x.op.Reinstate?) && x.op.expert >= |b.sim.experts| then (b, at) else
        var (p, o) := PortStep(cfg, b.sim, 1000 * now, x.op);
        (PortTrace(p, b.outcomes + [o]), now)
  }

  lemma PrefixInDomain(cfg: Settings, w: Trace, ops: seq<Timed>, n: nat)
    requires n <= |ops|
    ensures InDomainRun(cfg, w, ops) ==> InDomainRun(cfg, w, ops[..n])
    ensures NoMoves(cfg, w, ops) ==> NoMoves(cfg, w, ops[..n])
  {
    hide InDomain, ServiceRun;
    forall m | 0 <= m <= n ensures ops[..n][..m] == ops[..m] {
    }
  }

  lemma LastMoves(cfg: Settings, w: Trace, ops: seq<Timed>)
    requires ops != [] && NoMoves(cfg, w, ops)
    ensures ServiceRun(cfg, w, ops).state.moves == ServiceRun(cfg, w, ops[..|ops| - 1]).state.moves
  {
    hide ServiceRun;
    assert ops[..|ops|] == ops;
    if |ops| == 1 {
      assert ServiceRun(cfg, w, []) == w by {
        EmptyRun(cfg, w);
      }
      assert ops[..0] == [];
    }
  }

  lemma EmptyRun(cfg: Settings, w: Trace)
    ensures ServiceRun(cfg, w, []) == w && NoMoves(cfg, w, [])
  {
  }

  /**
   * Over every shared run in which no tier moves the port gives the service's answers and ends in its state, seen
   * through the view.
   */
  lemma {:induction false} PortRefinesService(cfg: Settings, w: Trace, ops: seq<Timed>)
    requires Shared(cfg, w.state, w.clock) && InDomainRun(cfg, w, ops) && NoMoves(cfg, w, ops)
    ensures var w' := ServiceRun(cfg, w, ops);
            && PortRun(cfg, PortTrace(View(w.state), w.outcomes), w.clock, ops)
               == (PortTrace(View(w'.state), w'.outcomes), w'.clock)
            && Shared(cfg, w'.state, w'.clock)
  {
    hide Shared, View, PortStep, ServiceOutcome, Service.Commit, Service.Apply, InDomain, ToEvent, Linked,
      InDomainRun, NoMoves;
    if ops != [] {
      var front, x := ops[..|ops| - 1], ops[|ops| - 1];
      PrefixInDomain(cfg, w, ops, |ops| - 1);
      PortRefinesService(cfg, w, front);
      var b := ServiceRun(cfg, w, front);
      SharedInv(cfg, b.state, b.clock);
      LastMoves(cfg, w, ops);
      LastInDomain(cfg, w, ops);
      StepView(cfg, b.state, b.clock, b.clock + 1 + x.wait, x.op);
    }
  }

  lemma LastInDomain(cfg: Settings, w: Trace, ops: seq<Timed>)
    requires ops != [] && InDomainRun(cfg, w, ops)
    ensures InDomain(ServiceRun(cfg, w, ops[..|ops| - 1]).state, ops[|ops| - 1].op)
  {
  }

  // ----- settings under which no tier moves ----------------------------------------------------------------------

  /** More samples than a window holds are asked for before a tier moves. */
  predicate TiersFixed(cfg: Settings) {
    cfg.calibrationWindow < cfg.calibrationMinSamples
  }

  lemma NothingJustified(cfg: Settings, s: State, m: Move)
    requires TiersFixed(cfg)
    ensures !Tiers.Justified(cfg, s, m)
  {
    hide Windows.Merge, Windows.Rate;
    assert |Calibration.SignalFlags(s, m.expert, cfg.calibrationWindow)| <= cfg.calibrationWindow;
  }

  lemma FixedStep(cfg: Settings, s: State, clock: int, now: int, ev: Service.Event)
    requires Inv(cfg, s, clock) && clock < now && TiersFixed(cfg)
    ensures Service.Commit(cfg, s, now, ev).moves == s.moves
  {
    hide Inv, Service.Apply, Tiers.Justified;
    SharedLinks(cfg, s, clock);
    var r := Service.Apply(cfg, s, now, ev);
    if r.Ok? {
      Tiers.AcceptedMoves(cfg, s, r.value, clock, now, ev);
      if |r.value.moves| > |s.moves| {
        NothingJustified(cfg, r.value, r.value.moves[|s.moves|]);
      }
    }
  }

  lemma SharedLinks(cfg: Settings, s: State, clock: int)
    requires Inv(cfg, s, clock)
    ensures Linked(s)
  {
  }

  /** A window too short for the sample minimum keeps every shared run free of moves, so the refinement covers it. */
  lemma {:induction false} FixedTiersRefine(cfg: Settings, w: Trace, ops: seq<Timed>)
    requires Shared(cfg, w.state, w.clock) && TiersFixed(cfg) && InDomainRun(cfg, w, ops)
    ensures NoMoves(cfg, w, ops)
    ensures PortRun(cfg, PortTrace(View(w.state), w.outcomes), w.clock, ops).0.sim
         == View(ServiceRun(cfg, w, ops).state)
    ensures Shared(cfg, ServiceRun(cfg, w, ops).state, ServiceRun(cfg, w, ops).clock)
  {
    hide Shared, View, PortStep, ServiceOutcome, Service.Commit, Service.Apply, InDomain, InDomainRun, NoMoves,
      ToEvent, Linked, PortRun, TiersFixed;
    if ops != [] {
      var front, x := ops[..|ops| - 1], ops[|ops| - 1];
      PrefixInDomain(cfg, w, ops, |ops| - 1);
      FixedTiersRefine(cfg, w, front);
      var b := ServiceRun(cfg, w, front);
      SharedInv(cfg, b.state, b.clock);
      FixedStep(cfg, b.state, b.clock, b.clock + 1 + x.wait, ToEvent(x.op));
      FrontMoves(cfg, w, ops);
    } else {
      EmptyRun(cfg, w);
    }
    PortRefinesService(cfg, w, ops);
  }

  lemma FrontMoves(cfg: Settings, w: Trace, ops: seq<Timed>)
    requires ops != [] && NoMoves(cfg, w, ops[..|ops| - 1])
    requires ServiceRun(cfg, w, ops).state.moves == ServiceRun(cfg, w, ops[..|ops| - 1]).state.moves
    ensures NoMoves(cfg, w, ops)
  {
    hide ServiceRun;
    EmptyRun(cfg, w);
    var front := ops[..|ops| - 1];
    assert front == [] || front[..|front|] == front;
    forall n | 0 < n <= |ops| ensures ServiceRun(cfg, w, ops[..n]).state.moves == w.state.moves {
      assert n < |ops| ==> front[..n] == ops[..n];
      assert n == |ops| ==> ops[..n] == ops;
    }
  }

  /** Both start from one rubric, scored from one to five. */
  lemma SharedStart(cfg: Settings, name: string, version: int, criteria: seq<Criterion>)
    ensures var s := EMPTY.(rubrics := [Rubric(name, version, Port.Scaled(criteria), None)]);
            && Shared(cfg, s, 0)
            && View(s) == Port.Sim([], map[], Some(Port.Rubric(name, version, Port.Scaled(criteria))), [], [], [], [],
                                   [], [], {})
  {
  }
}
