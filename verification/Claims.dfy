/** What a claim does and refuses, in terms of the rows: tags, the three tiers, leases, grades and the queue order. */
module Claims {
  import opened Wrappers
  import opened Model
  import Queue
  import Routing

  /** Which tiers may take a task of that minimum. */
  predicate MayTake(tier: Tier, min: Tier) {
    match min
    case Junior => true
    case Senior => tier == Senior || tier == Lead
    case Lead => tier == Lead
  }

  /** In the queue, or assigned on a lease that has run out. */
  predicate Free(task: Task, now: int) {
    task.status == Queued || LeaseOver(task, now)
  }

  predicate LeaseOver(task: Task, now: int) {
    task.status == Assigned && task.lease.Some? && task.lease.value < now
  }

  lemma TierGate(tier: Tier, min: Tier)
    ensures Rank(min) <= Rank(tier) <==> MayTake(tier, min)
  {
  }

  // ----- what a claim writes ------------------------------------------------------------------------------

  /** Leases that have run out are back in the queue; nothing else has changed. */
  ghost predicate Returned(task: Task, task': Task, now: int) {
    if LeaseOver(task, now)
    then && task'.status == Queued && task'.holder == None && task'.assignedAt == None && task'.lease == None
         && task'.reclaims == task.reclaims + 1 && SameContents(task, task')
    else task' == task
  }

  /** What leases leave alone: all but status, lease columns, pin, counts of leases and their trail. */
  predicate SameContents(a: Task, b: Task) {
    && b.tags == a.tags && b.kind == a.kind && b.minTier == a.minTier && b.rubric == a.rubric
    && b.priority == a.priority && b.deadline == a.deadline && b.required == a.required && b.received == a.received
    && b.golden == a.golden && b.expected == a.expected
  }

  /** The task is the expert's until the lease ends, graded against the rubric version it had; it counts as served. */
  ghost predicate Claimed(cfg: Settings, s: State, s': State, now: int, e: ExpertId, t: TaskId) {
    && e < |s.experts| && t < |s.tasks|
    && |s'.tasks| == |s.tasks| && (forall u | 0 <= u < |s.tasks| && u != t :: Returned(s.tasks[u], s'.tasks[u], now))
    && SameContents(s.tasks[t], s'.tasks[t])
    && s'.tasks[t].status == Assigned && s'.tasks[t].holder == Some(e) && s'.tasks[t].assignedAt == Some(now)
    && s'.tasks[t].lease == Some(now + cfg.leaseSeconds) && s'.tasks[t].pinned == Some(s.tasks[t].rubric)
    && s'.experts == s.experts[e := s.experts[e].(served := s.experts[e].served + 1)]
    && s'.served == s.served + [(t, e)]
    && s' == s.(tasks := s'.tasks, experts := s'.experts, served := s'.served)
  }

  lemma ReclaimReturns(s: State, now: int, t: TaskId)
    requires t < |s.tasks|
    ensures var s1 := Routing.ReclaimExpired(s, now);
            && s1 == s.(tasks := s1.tasks) && |s1.tasks| == |s.tasks|
            && Returned(s.tasks[t], s1.tasks[t], now) && SameContents(s.tasks[t], s1.tasks[t])
            && (s1.tasks[t].status == Queued <==> Free(s.tasks[t], now))
  {
  }

  /** Leases that have run out are back in the queue, and that is all. */
  ghost predicate OnlyReturned(s: State, s': State, now: int) {
    && s' == s.(tasks := s'.tasks) && |s'.tasks| == |s.tasks|
    && forall u | 0 <= u < |s.tasks| :: Returned(s.tasks[u], s'.tasks[u], now)
  }

  lemma ReclaimMeans(s: State, now: int)
    ensures OnlyReturned(s, Routing.ReclaimExpired(s, now), now)
  {
    hide Routing.ReclaimExpired, Returned;
    var s1 := Routing.ReclaimExpired(s, now);
    forall u | 0 <= u < |s.tasks| ensures Returned(s.tasks[u], s1.tasks[u], now) {
      ReclaimReturns(s, now, u);
    }
  }

  /** A release puts the expert's own task back in the queue and clears the lease; nothing else changes. */
  lemma ReleaseMeans(s: State, e: ExpertId, t: TaskId)
    ensures var r := Routing.Release(s, e, t);
            if t >= |s.tasks| then r == Err(Service(404))
            else if s.tasks[t].status != Assigned || s.tasks[t].holder != Some(e) then r == Err(Service(409))
            else
              && r.Ok? && r.value == s.(tasks := r.value.tasks) && |r.value.tasks| == |s.tasks|
              && (forall u | 0 <= u < |s.tasks| && u != t :: r.value.tasks[u] == s.tasks[u])
              && var task := r.value.tasks[t];
                 && task.status == Queued && task.holder == None && task.assignedAt == None && task.lease == None
                 && task.reclaims == s.tasks[t].reclaims && SameContents(s.tasks[t], task)
  {
  }

  lemma AssignClaims(cfg: Settings, s: State, now: int, e: ExpertId, t: TaskId)
    requires e < |s.experts| && t < |s.tasks|
    ensures Claimed(cfg, s, Routing.Assign(cfg, Routing.ReclaimExpired(s, now), now, t, e), now, e, t)
  {
    var s1 := Routing.ReclaimExpired(s, now);
    forall u | 0 <= u < |s.tasks|
      ensures Returned(s.tasks[u], s1.tasks[u], now) && SameContents(s.tasks[u], s1.tasks[u])
    {
      ReclaimReturns(s, now, u);
    }
  }

  // ----- by name ------------------------------------------------------------------------------------------

  /** A claim by name succeeds for free tasks with a shared tag within the expert's tier, and otherwise says why not. */
  lemma NamedClaimMeans(cfg: Settings, s: State, now: int, e: ExpertId, t: TaskId)
    requires e < |s.experts|
    ensures var r, x := Routing.ClaimById(cfg, s, now, e, t), s.experts[e];
            if x.status != Active then r == Err(Service(423))
            else if t >= |s.tasks| then r == Err(Service(404))
            else if !Free(s.tasks[t], now) then r == Err(Service(409))
            else if !(exists tag :: tag in s.tasks[t].tags && tag in x.tags) then r == Err(Service(403))
            else if !MayTake(x.tier, s.tasks[t].minTier) then r == Err(Service(403))
            else r.Ok? && Claimed(cfg, s, r.value, now, e, t)
  {
    hide Routing.ReclaimExpired, Returned, Claimed, Rank, Routing.Assign;
    if t < |s.tasks| {
      ReclaimReturns(s, now, t);
      TierGate(s.experts[e].tier, s.tasks[t].minTier);
      AssignClaims(cfg, s, now, e, t);
      SharedTag(s.tasks[t].tags, s.experts[e].tags);
    }
  }

  lemma SharedTag(a: set<Tag>, b: set<Tag>)
    ensures a * b != {} <==> exists tag :: tag in a && tag in b
  {
    if tag :| tag in a && tag in b {
      assert tag in a * b;
    }
  }

  // ----- from the queue -----------------------------------------------------------------------------------

  /** A free task the expert may take and has not graded. */
  ghost predicate Offered(s: State, now: int, e: ExpertId, t: TaskId)
    requires e < |s.experts|
  {
    && t < |s.tasks| && Free(s.tasks[t], now)
    && (exists tag :: tag in s.tasks[t].tags && tag in s.experts[e].tags)
    && MayTake(s.experts[e].tier, s.tasks[t].minTier)
    && (forall g | 0 <= g < |s.grades| :: s.grades[g].task != t || s.grades[g].expert != e)
  }

  /** Higher priority, then the earlier deadline and any before none, then the older task. */
  predicate GoesBefore(a: Task, t: TaskId, b: Task, u: TaskId) {
    if a.priority != b.priority then a.priority > b.priority
    else match (a.deadline, b.deadline)
      case (Some(x), Some(y)) => x < y || (x == y && t < u)
      case (Some(_), None) => true
      case (None, Some(_)) => false
      case (None, None) => t < u
  }

  lemma OrderIs(tasks: seq<Task>, t: TaskId, u: TaskId)
    requires t < |tasks| && u < |tasks|
    ensures Routing.Precedes(tasks, t, u) <==> GoesBefore(tasks[t], t, tasks[u], u)
  {
  }

  lemma OfferedIs(s: State, now: int, e: ExpertId, t: TaskId)
    requires e < |s.experts| && t < |s.tasks|
    ensures Offered(s, now, e, t) <==> Routing.Eligible(Routing.ReclaimExpired(s, now), e, t)
  {
    hide Routing.ReclaimExpired, Returned, Rank;
    ReclaimReturns(s, now, t);
    TierGate(s.experts[e].tier, s.tasks[t].minTier);
    SharedTag(s.tasks[t].tags, s.experts[e].tags);
  }

  /** The first of the golden or of the regular tasks offered. */
  ghost predicate FirstOffered(s: State, now: int, e: ExpertId, golden: bool, t: TaskId)
    requires e < |s.experts|
  {
    && Offered(s, now, e, t) && s.tasks[t].golden == golden
    && forall u | 0 <= u < |s.tasks| && u != t && s.tasks[u].golden == golden && Offered(s, now, e, u) ::
         GoesBefore(s.tasks[t], t, s.tasks[u], u)
  }

  ghost predicate NoneOffered(s: State, now: int, e: ExpertId, golden: bool)
    requires e < |s.experts|
  {
    forall u | 0 <= u < |s.tasks| && s.tasks[u].golden == golden :: !Offered(s, now, e, u)
  }

  lemma PickMeans(s: State, now: int, e: ExpertId, golden: bool)
    requires e < |s.experts|
    ensures var pick := Routing.Pick(Routing.ReclaimExpired(s, now), e, golden);
            match pick
            case None => NoneOffered(s, now, e, golden)
            case Some(t) => FirstOffered(s, now, e, golden, t)
  {
    hide Routing.ReclaimExpired, Routing.Eligible, Offered, Routing.Pick, GoesBefore, Routing.Precedes, Returned;
    var s1 := Routing.ReclaimExpired(s, now);
    Queue.PickLeast(s1, e, golden);
    forall u | 0 <= u < |s.tasks|
      ensures Offered(s, now, e, u) <==> Routing.Eligible(s1, e, u)
      ensures s1.tasks[u].golden == s.tasks[u].golden
      ensures Queue.Candidate(s1, e, golden, u) <==> Offered(s, now, e, u) && s.tasks[u].golden == golden
    {
      OfferedIs(s, now, e, u);
      ReclaimReturns(s, now, u);
    }
    var pick := Routing.Pick(s1, e, golden);
    if pick.Some? {
      var t := pick.value;
      forall u | 0 <= u < |s.tasks| && u != t && s.tasks[u].golden == golden && Offered(s, now, e, u)
        ensures GoesBefore(s.tasks[t], t, s.tasks[u], u)
      {
        OrderIs(s1.tasks, t, u);
        ReclaimReturns(s, now, t);
        ReclaimReturns(s, now, u);
        SameOrder(s.tasks[t], s1.tasks[t], t, s.tasks[u], s1.tasks[u], u);
      }
    }
  }

  lemma SameOrder(a: Task, a': Task, t: TaskId, b: Task, b': Task, u: TaskId)
    requires SameContents(a, a') && SameContents(b, b')
    ensures GoesBefore(a', t, b', u) <==> GoesBefore(a, t, b, u)
  {
  }

  /**
   * A claim from the queue serves the first golden task offered when this serve prefers a check and one is offered,
   * else the first regular one, else nothing: a golden task is never filler.
   */
  lemma QueueClaimMeans(cfg: Settings, s: State, now: int, e: ExpertId)
    requires e < |s.experts|
    ensures var r, x := Routing.ClaimNext(cfg, s, now, e), s.experts[e];
            var checks := cfg.prefersCheck(e, x.served + 1) && !NoneOffered(s, now, e, true);
            if x.status != Active then r == Err(Service(423))
            else
              && r.Ok?
              && match r.value.1
                 case None => !checks && NoneOffered(s, now, e, false) && OnlyReturned(s, r.value.0, now)
                 case Some(t) => FirstOffered(s, now, e, checks, t) && Claimed(cfg, s, r.value.0, now, e, t)
  {
    hide Routing.ReclaimExpired, Routing.Pick, Offered, GoesBefore, Claimed, Routing.Assign, OnlyReturned;
    PickMeans(s, now, e, true);
    PickMeans(s, now, e, false);
    ReclaimMeans(s, now);
    var r := Routing.ClaimNext(cfg, s, now, e);
    if r.Ok? && r.value.1.Some? {
      var t := r.value.1.value;
      AssignClaims(cfg, s, now, e, t);
      assert FirstOffered(s, now, e, true, t) || FirstOffered(s, now, e, false, t);
    }
  }

  /** Whoever a claim gives a lead task is a lead, and whoever it gives a senior task a senior or a lead. */
  lemma ClaimTiers(cfg: Settings, s: State, s': State, now: int, e: ExpertId, t: TaskId)
    requires e < |s.experts|
    requires Routing.ClaimNext(cfg, s, now, e) == Ok((s', Some(t))) || Routing.ClaimById(cfg, s, now, e, t) == Ok(s')
    ensures t < |s'.tasks| && s'.tasks[t].holder == Some(e) && e < |s'.experts|
    ensures s'.tasks[t].minTier == Lead ==> s'.experts[e].tier == Lead
    ensures s'.tasks[t].minTier == Senior ==> s'.experts[e].tier == Senior || s'.experts[e].tier == Lead
  {
    hide Routing.ClaimNext, Routing.ClaimById, GoesBefore;
    NamedClaimMeans(cfg, s, now, e, t);
    QueueClaimMeans(cfg, s, now, e);
  }
}
