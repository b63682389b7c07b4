/** The queue as one expert sees it: served in order, each task once, until it is empty. */
module Queue {
  import opened Wrappers
  import opened Model
  import opened Tables
  import opened Routing

  // ----- the order is strict and total ---------------------------------------------------------

  lemma PrecedesTotal(tasks: seq<Task>, i: TaskId, j: TaskId)
    requires i < |tasks| && j < |tasks| && i != j
    ensures Precedes(tasks, i, j) <==> !Precedes(tasks, j, i)
  {
  }

  lemma PrecedesTransitive(tasks: seq<Task>, i: TaskId, j: TaskId, k: TaskId)
    requires i < |tasks| && j < |tasks| && k < |tasks| && Precedes(tasks, i, j) && Precedes(tasks, j, k)
    ensures Precedes(tasks, i, k)
  {
  }

  /** A task of the wanted kind this expert may take now. */
  predicate Candidate(s: State, e: ExpertId, golden: bool, t: TaskId)
    requires e < |s.experts|
  {
    t < |s.tasks| && Eligible(s, e, t) && s.tasks[t].golden == golden
  }

  lemma {:induction false} PickAmongLeast(s: State, e: ExpertId, golden: bool, n: nat)
    requires e < |s.experts| && n <= |s.tasks|
    ensures var best := PickAmong(s, e, golden, n);
            && (best == None <==> forall t | 0 <= t < n :: !Candidate(s, e, golden, t))
            && (best.Some? ==> forall t | 0 <= t < n && t != best.value ::
                  Candidate(s, e, golden, t) ==> Precedes(s.tasks, best.value, t))
  {
    hide Eligible;
    if n > 0 {
      PickAmongLeast(s, e, golden, n - 1);
      var rest, t, best := PickAmong(s, e, golden, n - 1), n - 1, PickAmong(s, e, golden, n);
      assert best.Some? ==> Candidate(s, e, golden, best.value);
      if rest.Some? && Candidate(s, e, golden, t) {
        PrecedesTotal(s.tasks, t, rest.value);
        if Precedes(s.tasks, t, rest.value) {
          forall u | 0 <= u < n - 1 && u != rest.value && Candidate(s, e, golden, u) ensures Precedes(s.tasks, t, u) {
            PrecedesTransitive(s.tasks, t, rest.value, u);
          }
        }
      }
    }
  }

  /** The pick is the first candidate in queue order, and there is none only when there is no candidate. */
  lemma PickLeast(s: State, e: ExpertId, golden: bool)
    requires e < |s.experts|
    ensures Pick(s, e, golden) == None <==> forall t :: !Candidate(s, e, golden, t)
    ensures Pick(s, e, golden).Some? ==>
              forall t :: Candidate(s, e, golden, t) && t != Pick(s, e, golden).value ==>
                Precedes(s.tasks, Pick(s, e, golden).value, t)
  {
    PickAmongLeast(s, e, golden, |s.tasks|);
  }

  // ----- repeated claims ---------------------------------------------------------------------------

  /** What one expert is served by claiming again and again at these times, until nothing is left. */
  function Drain(cfg: Settings, s: State, e: ExpertId, times: seq<int>): (r: seq<TaskId>)
    requires e < |s.experts|
    decreases |times|
  {
    if times == [] then [] else
      match ClaimNext(cfg, s, times[0], e)
      case Ok((s', Some(t))) => if e < |s'.experts| then [t] + Drain(cfg, s', e, times[1..]) else []
      case _ => []
  }

  /** Nothing interrupts the claims: the expert is active, no serve prefers a check and no lease runs out. */
  ghost predicate Undisturbed(cfg: Settings, s: State, e: ExpertId, times: seq<int>)
    requires e < |s.experts|
  {
    && s.experts[e].status == Active
    && (forall n | n > s.experts[e].served :: !cfg.prefersCheck(e, n))
    && (forall t, i | 0 <= t < |s.tasks| && 0 <= i < |times| :: !Expired(s.tasks[t], times[i]))
    && (forall i, j :: 0 <= i < j < |times| ==> times[j] <= times[i] + cfg.leaseSeconds)
  }

  lemma ReclaimNothing(s: State, now: int)
    requires forall t | 0 <= t < |s.tasks| :: !Expired(s.tasks[t], now)
    ensures ReclaimExpired(s, now) == s
  {
    assert ReclaimRows(s.tasks, now) == s.tasks;
  }

  lemma ClaimPicks(cfg: Settings, s: State, e: ExpertId, times: seq<int>)
    requires e < |s.experts| && times != [] && Undisturbed(cfg, s, e, times)
    ensures var pick := Pick(s, e, false);
            ClaimNext(cfg, s, times[0], e)
            == Ok(if pick == None then (s, None) else (Assign(cfg, s, times[0], pick.value, e), pick))
  {
    hide Eligible, PickAmong;
    forall t | 0 <= t < |s.tasks| ensures !Expired(s.tasks[t], times[0]) {
    }
    ReclaimNothing(s, times[0]);
  }

  /** A claim takes exactly its task out of the candidates. */
  lemma AssignTakes(cfg: Settings, s: State, now: int, t: TaskId, e: ExpertId, u: TaskId)
    requires e < |s.experts| && t < |s.tasks|
    ensures Candidate(Assign(cfg, s, now, t, e), e, false, u) <==> Candidate(s, e, false, u) && u != t
  {
  }

  lemma StillUndisturbed(cfg: Settings, s: State, t: TaskId, e: ExpertId, times: seq<int>)
    requires e < |s.experts| && t < |s.tasks| && times != [] && Undisturbed(cfg, s, e, times)
    ensures Undisturbed(cfg, Assign(cfg, s, times[0], t, e), e, times[1..])
  {
    var s' := Assign(cfg, s, times[0], t, e);
    forall u, i | 0 <= u < |s'.tasks| && 0 <= i < |times[1..]| ensures !Expired(s'.tasks[u], times[1..][i]) {
      assert times[1..][i] == times[i + 1];
      assert !Expired(s.tasks[u], times[i + 1]);
    }
  }

  /**
   * Undisturbed, repeated claims serve the eligible regular tasks in queue order, each once, and stop when none is
   * left.
   */
  lemma {:induction false} DrainInOrder(cfg: Settings, s: State, e: ExpertId, times: seq<int>)
    requires e < |s.experts| && Undisturbed(cfg, s, e, times)
    ensures var served := Drain(cfg, s, e, times);
            && (forall i | 0 <= i < |served| :: Candidate(s, e, false, served[i]))
            && (forall i, j :: 0 <= i < j < |served| ==>
                  Precedes(s.tasks, served[i], served[j]) && served[i] != served[j])
            && (|served| < |times| ==> forall t :: Candidate(s, e, false, t) ==> t in served)
            && (|served| == |times| ==>
                  forall t, i :: Candidate(s, e, false, t) && t !in served && 0 <= i < |served| ==>
                    Precedes(s.tasks, served[i], t))
    decreases |times|
  {
    hide Eligible, PickAmong, Precedes, Undisturbed;
    var served := Drain(cfg, s, e, times);
    if times != [] {
      ClaimPicks(cfg, s, e, times);
      PickLeast(s, e, false);
      var pick := Pick(s, e, false);
      if pick.Some? {
        var s' := Assign(cfg, s, times[0], pick.value, e);
        StillUndisturbed(cfg, s, pick.value, e, times);
        DrainInOrder(cfg, s', e, times[1..]);
        var rest := Drain(cfg, s', e, times[1..]);
        assert served == [pick.value] + rest;
        forall u ensures Candidate(s', e, false, u) <==> Candidate(s, e, false, u) && u != pick.value {
          AssignTakes(cfg, s, times[0], pick.value, e, u);
        }
        AssignOrder(cfg, s, times[0], pick.value, e);
      }
    }
  }

  lemma AssignOrder(cfg: Settings, s: State, now: int, t: TaskId, e: ExpertId)
    requires e < |s.experts| && t < |s.tasks|
    ensures forall u, v | 0 <= u < |s.tasks| && 0 <= v < |s.tasks| ::
              Precedes(Assign(cfg, s, now, t, e).tasks, u, v) == Precedes(s.tasks, u, v)
  {
  }

  // ----- claims by name ------------------------------------------------------------------------------

  /**
   * For an expert who has not graded the task, claiming it by name is accepted exactly when the queue would offer it.
   */
  lemma NamedClaim(cfg: Settings, s: State, now: int, e: ExpertId, t: TaskId)
    requires e < |s.experts| && !HasGraded(s.grades, t, e)
    ensures ClaimById(cfg, s, now, e, t).Ok? <==>
              s.experts[e].status == Active && t < |s.tasks| && Eligible(ReclaimExpired(s, now), e, t)
  {
    hide ReclaimRow;
  }

  /** For one who has, the queue never offers it, but a claim by name ignores the grade. */
  lemma NamedClaimAgain(cfg: Settings, s: State, now: int, e: ExpertId, t: TaskId)
    requires e < |s.experts| && t < |s.tasks| && HasGraded(s.grades, t, e) && s.experts[e].status == Active
    requires s.tasks[t].status == Queued && s.tasks[t].tags * s.experts[e].tags != {}
    requires Rank(s.tasks[t].minTier) <= Rank(s.experts[e].tier)
    ensures !Eligible(ReclaimExpired(s, now), e, t) && ClaimById(cfg, s, now, e, t).Ok?
  {
    assert ReclaimExpired(s, now).tasks[t] == s.tasks[t];
  }
}
