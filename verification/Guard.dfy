/** The attention guard: running it only after failures is enough, and what it pauses stays unpaid. */
module Guard {
  import opened Wrappers
  import opened Model
  import opened Tables
  import opened Windows
  import opened Invariant
  import opened Attention
  import opened Payouts
  import opened Rounding
  import opened Ledger
  import Calibration
  import Consensus
  import Grading
  import Routing
  import Experts
  import Service

  // ----- failures only ---------------------------------------------------------------------------

  /** Every check of e from the one that reached the minimum on was passed. */
  ghost predicate PassedSinceMinimum(cfg: Settings, checks: seq<Check>, e: ExpertId) {
    var flags := CheckFlags(checks, e);
    forall i | 0 <= i && i + cfg.attentionMinChecks <= |flags| && i < |flags| :: flags[i]
  }

  /**
   * An expert who has failed no check since there were enough is active; an active one whose rolling rate is too low
   * on enough checks has failed none since.
   */
  ghost predicate GuardOk(cfg: Settings, s: State, e: ExpertId) {
    e < |s.experts| ==>
      && s.experts[e].status != Inactive
      && (PassedSinceMinimum(cfg, s.checks, e) ==> s.experts[e].status == Active)
      && (s.experts[e].status == Active && Trips(cfg, s.checks, e) ==> PassedSinceMinimum(cfg, s.checks, e))
  }

  lemma FlagsAppend(checks: seq<Check>, check: Check, e: ExpertId)
    ensures CheckFlags(checks + [check], e)
         == (if check.expert == e then [check.passed] else []) + CheckFlags(checks, e)
  {
    assert (checks + [check])[..|checks|] == checks;
  }

  /** A passed check trips the guard only if it would have tripped before, or just reached the minimum. */
  lemma PassTrips(cfg: Settings, checks: seq<Check>, check: Check)
    requires check.passed && Trips(cfg, checks + [check], check.expert)
    ensures Trips(cfg, checks, check.expert) || |CheckFlags(checks, check.expert)| < cfg.attentionMinChecks
            || CheckFlags(checks, check.expert) == []
  {
    var e := check.expert;
    var before := CheckFlags(checks, e);
    FlagsAppend(checks, check, e);
    if before != [] && 0 < cfg.attentionWindow {
      PassNeverLowers(before, cfg.attentionWindow);
    }
  }

  /**
   * A check that leaves every check since the minimum passed was passed itself if it trips the guard, and so were they
   * before.
   */
  lemma PassedBefore(cfg: Settings, checks: seq<Check>, check: Check)
    requires PassedSinceMinimum(cfg, checks + [check], check.expert)
    ensures PassedSinceMinimum(cfg, checks, check.expert)
    ensures Trips(cfg, checks + [check], check.expert) ==> check.passed
  {
    hide Rate;
    var e := check.expert;
    var flags, after := CheckFlags(checks, e), CheckFlags(checks + [check], e);
    FlagsAppend(checks, check, e);
    forall i | 0 <= i && i + cfg.attentionMinChecks <= |flags| && i < |flags| ensures flags[i] {
      assert after[i + 1] == flags[i];
    }
  }

  lemma CheckKeepsGuard(cfg: Settings, s: State, s': State, check: Check)
    requires check.expert < |s.experts| && Guarded(cfg, s, s', check.expert, Some(check))
    requires GuardOk(cfg, s, check.expert)
    ensures GuardOk(cfg, s', check.expert)
  {
    hide RollingPassRate, Restate;
    var e := check.expert;
    FlagsAppend(s.checks, check, e);
    if PassedSinceMinimum(cfg, s'.checks, e) {
      PassedBefore(cfg, s.checks, check);
    }
    if s'.experts[e].status == Active && Trips(cfg, s'.checks, e) {
      assert s'.checks == s.checks + [check];
      assert check.passed;
      PassTrips(cfg, s.checks, check);
    }
  }

  lemma OtherCheck(cfg: Settings, checks: seq<Check>, check: Check, e: ExpertId)
    requires check.expert != e
    ensures CheckFlags(checks + [check], e) == CheckFlags(checks, e)
  {
    FlagsAppend(checks, check, e);
  }

  lemma SubmitKeepsGuard(cfg: Settings, s: State, s': State, x: ExpertId, check: Option<Check>, e: ExpertId)
    requires x < |s.experts| && (check.Some? ==> check.value.expert == x)
    requires Guarded(cfg, s, s', x, check) && GuardOk(cfg, s, e)
    ensures GuardOk(cfg, s', e)
  {
    hide Rate, Restate;
    if check == None {
      assert s'.checks == s.checks;
    } else if x == e {
      CheckKeepsGuard(cfg, s, s', check.value);
    } else {
      OtherCheck(cfg, s.checks, check.value, e);
    }
  }

  lemma {:induction false} NoChecks(checks: seq<Check>, e: ExpertId)
    requires forall i | 0 <= i < |checks| :: checks[i].expert != e
    ensures CheckFlags(checks, e) == []
  {
    if checks != [] {
      NoChecks(checks[..|checks| - 1], e);
    }
  }

  /** Requests that add no check and change no status of e. */
  lemma QuietKeepsGuard(cfg: Settings, s: State, s': State, e: ExpertId)
    requires GuardOk(cfg, s, e) && s'.checks == s.checks && |s.experts| <= |s'.experts|
    requires forall i | 0 <= i < |s.checks| :: s.checks[i].expert < |s.experts|
    requires e < |s.experts| ==> s'.experts[e].status == s.experts[e].status
    requires |s.experts| <= e < |s'.experts| ==> s'.experts[e].status == Active
    ensures GuardOk(cfg, s', e)
  {
    if |s.experts| <= e {
      NoChecks(s.checks, e);
    }
  }

  lemma ChecksFrame(cfg: Settings, s: State, s': State, now: int, ev: Service.Event)
    requires Linked(s) && !ev.Submit? && Service.Apply(cfg, s, now, ev) == Ok(s')
    ensures s'.checks == s.checks
  {
    hide Calibration.Update, Grading.ReviewedRow, TaskEntries;
    match ev {
      case Resolve(t, delivered) => ResolveRows(cfg, s, s', now, t, delivered);
      case _ =>
    }
  }

  /** An expert starts active. */
  lemma NewcomersActive(cfg: Settings, s: State, s': State, now: int, ev: Service.Event)
    requires Linked(s) && !ev.Submit? && Service.Apply(cfg, s, now, ev) == Ok(s')
    ensures forall e | |s.experts| <= e < |s'.experts| :: s'.experts[e].status == Active
  {
    hide Calibration.Update, Grading.ReviewGrade, Consensus.Resolve, Routing.Eligible, Routing.PickAmong;
    match ev {
      case Resolve(t, delivered) => ResolveRows(cfg, s, s', now, t, delivered);
      case ReviewGrade(g, d) => ReviewRows(cfg, s, s', now, g, d);
      case _ =>
    }
  }

  lemma AcceptedGuard(cfg: Settings, s: State, s': State, clock: int, now: int, ev: Service.Event, e: ExpertId)
    requires Inv(cfg, s, clock) && Service.Apply(cfg, s, now, ev) == Ok(s')
    requires StatusEvolves(s, s', ev) && GuardOk(cfg, s, e) && !(ev.SetStatus? && ev.expert == e)
    ensures GuardOk(cfg, s', e)
  {
    hide GuardOk, Grading.Submit, TasksOk;
    if ev.Submit? {
      SubmitGuarded(cfg, s, s', now, ev.expert, ev.task, ev.scores, ev.given);
      SubmitKeepsGuard(cfg, s, s', ev.expert, SubmittedCheck(cfg, s, now, ev.expert, ev.task, ev.scores), e);
    } else {
      ChecksFrame(cfg, s, s', now, ev);
      NewcomersActive(cfg, s, s', now, ev);
      QuietKeepsGuard(cfg, s, s', e);
    }
  }

  // ----- paused by the guard ------------------------------------------------------------------------

  /** A paused expert with nothing pending. */
  ghost predicate Frozen(s: State, e: ExpertId) {
    e < |s.experts| && s.experts[e].status == Paused
    && forall i | 0 <= i < |s.payouts| :: s.payouts[i].expert == e ==> s.payouts[i].status != Pending
  }

  /** The guard freezes the expert it pauses. */
  lemma GuardFreezes(cfg: Settings, s: State, s': State, now: int, ev: Service.Event)
    requires Linked(s) && ev.Submit? && Service.Apply(cfg, s, now, ev) == Ok(s')
    requires s.experts[ev.expert].status != Paused && s'.experts[ev.expert].status == Paused
    ensures Frozen(s', ev.expert)
  {
    hide Grading.Submit, Trips;
    SubmitGuarded(cfg, s, s', now, ev.expert, ev.task, ev.scores, ev.given);
  }

  /** Until an administrator sets their status, nothing of a frozen expert becomes pending or is paid. */
  lemma FrozenStays(cfg: Settings, s: State, s': State, ev: Service.Event, e: ExpertId)
    requires Linked(s) && Frozen(s, e) && !(ev.SetStatus? && ev.expert == e)
    requires PayoutsEvolve(cfg, s, s', ev) && StatusEvolves(s, s', ev)
    ensures Frozen(s', e)
    ensures forall i | 0 <= i < |s'.payouts| && s'.payouts[i].expert == e && s'.payouts[i].status == Paid ::
              i < |s.payouts| && s'.payouts[i] == s.payouts[i]
  {
    hide RateFor, RoundHalfEven;
    forall i | 0 <= i < |s'.payouts| && s'.payouts[i].expert == e
      ensures s'.payouts[i].status != Pending
      ensures s'.payouts[i].status == Paid ==> i < |s.payouts| && s'.payouts[i] == s.payouts[i]
    {
      if i < |s.payouts| {
        assert RowEvolves(s.payouts[i], s'.payouts[i], |s.periods|, ev);
      } else {
        assert FreshRow(cfg, s, s'.payouts[i]);
        FreshWithheld(cfg, s, s'.payouts[i]);
      }
    }
  }

  lemma FreshWithheld(cfg: Settings, s: State, p: Payout)
    requires Linked(s) && FreshRow(cfg, s, p) && p.expert < |s.experts|
    ensures p.period == None && p.status == if s.experts[p.expert].status == Paused then Withheld else Pending
  {
    hide RateFor, RoundHalfEven;
    var chosen :| EarnedRow(cfg, s, p.grade, chosen) == [p];
    assert EarnedRow(cfg, s, p.grade, chosen)[0] == p;
  }

  // ----- paused by hand -----------------------------------------------------------------------------

  /** A pause by an administrator withholds nothing: a pending payout is paid by the next close all the same. */
  lemma PausedByHandIsPaid(cfg: Settings, s: State, e: ExpertId, i: nat, name: string)
    requires e < |s.experts| && i < |s.payouts| && name !in s.periods
    requires s.payouts[i].expert == e && s.payouts[i].status == Pending && s.payouts[i].period == None
    ensures Experts.SetStatus(s, e, Paused).Ok?
    ensures var s1 := Experts.SetStatus(s, e, Paused).value;
            && s1.experts[e].status == Paused && ClosePeriod(s1, name).Ok?
            && ClosePeriod(s1, name).value.payouts[i] == s.payouts[i].(status := Paid, period := Some(|s.periods|))
  {
  }

  /** Only the step from paused straight to active releases anything. */
  lemma OnlyDirectReinstatementReleases(s: State, e: ExpertId, status: ExpertStatus)
    requires Experts.SetStatus(s, e, status).Ok?
    ensures Experts.SetStatus(s, e, status).value.payouts != s.payouts <==>
              && s.experts[e].status == Paused && status == Active
              && exists i | 0 <= i < |s.payouts| :: s.payouts[i].expert == e && s.payouts[i].status == Withheld
  {
    var after := Restate(s.payouts, e, Withheld, Pending);
    if exists i | 0 <= i < |s.payouts| :: s.payouts[i].expert == e && s.payouts[i].status == Withheld {
      var i :| 0 <= i < |s.payouts| && s.payouts[i].expert == e && s.payouts[i].status == Withheld;
      assert after[i] != s.payouts[i];
    } else {
      assert after == s.payouts;
    }
  }
}
