/** Totals over the payout table, and what requests keep of them. */
module Money {
  import opened Wrappers
  import opened Model
  import opened Tables
  import opened Payouts
  import opened Rounding
  import opened Ledger
  import opened Books
  import Service

  // ----- amounts -----------------------------------------------------------------------

  lemma ExactBounds(rate: int, fraction: real)
    requires 0 <= rate && 0.0 <= fraction <= 1.0
    ensures 0.0 <= Exact(rate, fraction) <= rate as real
    ensures fraction == 1.0 ==> Exact(rate, fraction) == rate as real
  {
    Scale(0.0, fraction, rate as real);
    Scale(fraction, 1.0, rate as real);
  }

  /** A payout is within half a cent of the share of the rate it stands for, never negative, never above the rate. */
  lemma AmountBounds(rate: int, fraction: real)
    requires 0 <= rate && 0.0 <= fraction <= 1.0
    ensures var amount, exact := RoundHalfEven(Exact(rate, fraction)), Exact(rate, fraction);
            && 0 <= amount <= rate
            && -0.5 <= amount as real - exact <= 0.5
            && (fraction == 1.0 ==> amount == rate)
  {
    hide Exact;
    var exact := Exact(rate, fraction);
    ExactBounds(rate, fraction);
    RoundMonotone(0.0, exact);
    RoundMonotone(exact, rate as real);
    RoundWhole(0);
    RoundWhole(rate);
  }

  lemma Scale(a: real, b: real, w: real)
    requires a <= b && 0.0 <= w
    ensures w * a <= w * b
  {
  }

  /** A larger share of the rate never pays less. */
  lemma AmountMonotone(rate: int, less: real, more: real)
    requires 0 <= rate && less <= more
    ensures RoundHalfEven(Exact(rate, less)) <= RoundHalfEven(Exact(rate, more))
  {
    Scale(less, more, rate as real);
    RoundMonotone(Exact(rate, less), Exact(rate, more));
  }

  /** The row a verdict writes: whose it is, at which tier and type, withheld exactly while its expert is paused. */
  lemma EarnedRowMeans(cfg: Settings, s: State, g: GradeId, chosen: bool, p: Payout)
    requires Linked(s) && g < |s.grades| && EarnedRow(cfg, s, g, chosen) == [p]
    ensures var x, task := s.experts[s.grades[g].expert], s.tasks[s.grades[g].task];
            && p.grade == g && p.expert == s.grades[g].expert && p.task == s.grades[g].task
            && p.tier == x.tier && p.kind == task.kind && p.period == None
            && p.status == if x.status == Paused then Withheld else Pending
  {
    hide RoundHalfEven;
    assert EarnedRow(cfg, s, g, chosen)[0] == p;
  }

  lemma EarnedShare(cfg: Settings, s: State, g: GradeId, chosen: bool, p: Payout)
    requires Linked(s) && g < |s.grades| && EarnedRow(cfg, s, g, chosen) == [p]
    ensures var rate := RateFor(s.cards, s.experts[s.grades[g].expert], s.tasks[s.grades[g].task].kind);
            rate.Ok? && Fraction(cfg, chosen).Some?
            && p.amount == RoundHalfEven(Exact(rate.value, Fraction(cfg, chosen).value))
  {
    assert EarnedRow(cfg, s, g, chosen)[0] == p;
  }

  /** Its amount is the nearest to the share of the rate the verdict earns, between nothing and the rate. */
  lemma EarnedAmount(cfg: Settings, s: State, g: GradeId, chosen: bool, p: Payout)
    requires Linked(s) && g < |s.grades| && EarnedRow(cfg, s, g, chosen) == [p]
    ensures var rate := RateFor(s.cards, s.experts[s.grades[g].expert], s.tasks[s.grades[g].task].kind);
            rate.Ok? && Fraction(cfg, chosen).Some?
            && NearestEven(p.amount, Exact(rate.value, Fraction(cfg, chosen).value))
            && (0 <= rate.value && (chosen || 0.0 <= cfg.outvotedRate <= 1.0) ==> 0 <= p.amount <= rate.value)
  {
    hide NearestEven, EarnedRow, Exact;
    EarnedShare(cfg, s, g, chosen, p);
    var rate := RateFor(s.cards, s.experts[s.grades[g].expert], s.tasks[s.grades[g].task].kind).value;
    AmountMeans(rate, Fraction(cfg, chosen).value, p.amount);
    if chosen || 0.0 <= cfg.outvotedRate <= 1.0 {
      ShareBounds(cfg, chosen);
    }
  }

  lemma ShareBounds(cfg: Settings, chosen: bool)
    requires Fraction(cfg, chosen).Some? && (chosen || 0.0 <= cfg.outvotedRate <= 1.0)
    ensures 0.0 <= Fraction(cfg, chosen).value <= 1.0
  {
  }

  lemma AmountMeans(rate: int, fraction: real, amount: int)
    requires amount == RoundHalfEven(Exact(rate, fraction))
    ensures NearestEven(amount, Exact(rate, fraction))
    ensures 0 <= rate && 0.0 <= fraction <= 1.0 ==> 0 <= amount <= rate
  {
    hide RoundHalfEven, NearestEven;
    RoundIsNearest(amount, Exact(rate, fraction));
    if 0 <= rate && 0.0 <= fraction <= 1.0 {
      AmountBounds(rate, fraction);
    }
  }

  // ----- totals ------------------------------------------------------------------------

  /** The totals of the first n periods, added up. */
  function CentsOverPeriods(ps: seq<Payout>, n: nat): (r: int) {
    if n == 0 then 0 else CentsOverPeriods(ps, n - 1) + Cents(ps, InPeriod(n - 1))
  }

  /** The ledger rows of the first n experts in one status, added up: `totals_by_status`. */
  function CentsOverExperts(ps: seq<Payout>, n: nat, status: PayoutStatus): (r: int) {
    if n == 0 then 0 else CentsOverExperts(ps, n - 1, status) + Cents(ps, OfExpert(n - 1, status))
  }

  lemma {:induction false} GrandIsEverything(ps: seq<Payout>)
    ensures GrandTotal(ps) == Cents(ps, Everything)
  {
    if ps != [] {
      GrandIsEverything(ps[..|ps| - 1]);
    }
  }

  lemma {:induction false} TotalsAppend(a: seq<Payout>, b: seq<Payout>, x: Slice)
    ensures Cents(a + b, x) == Cents(a, x) + Cents(b, x) && Count(a + b, x) == Count(a, x) + Count(b, x)
  {
    if b == [] {
      assert a + b == a;
    } else {
      TotalsAppend(a, b[..|b| - 1], x);
      assert (a + b)[..|a + b| - 1] == a + b[..|b| - 1];
    }
  }

  /** Row by row of the same amount, with the rows x selects in one table being those y selects in the other. */
  lemma {:induction false} TotalsMatch(a: seq<Payout>, x: Slice, b: seq<Payout>, y: Slice)
    requires SameGrades(a, b) && forall i | 0 <= i < |a| :: Selects(x, a[i]) == Selects(y, b[i])
    ensures Cents(a, x) == Cents(b, y) && Count(a, x) == Count(b, y)
  {
    if a != [] {
      TotalsMatch(a[..|a| - 1], x, b[..|b| - 1], y);
      assert a[|a| - 1].amount == b[|b| - 1].amount;
    }
  }

  /** Rows selected by neither or by exactly one of y and z where x selects them. */
  lemma {:induction false} TotalsSplit(a: seq<Payout>, x: Slice, b: seq<Payout>, y: Slice, z: Slice)
    requires SameGrades(a, b)
    requires forall i | 0 <= i < |a| ::
               Selects(x, b[i]) == (Selects(y, a[i]) || Selects(z, a[i])) && !(Selects(y, a[i]) && Selects(z, a[i]))
    ensures Cents(b, x) == Cents(a, y) + Cents(a, z) && Count(b, x) == Count(a, y) + Count(a, z)
  {
    if a != [] {
      TotalsSplit(a[..|a| - 1], x, b[..|b| - 1], y, z);
      assert a[|a| - 1].amount == b[|b| - 1].amount;
    }
  }

  /** What a tick reports as unbilled is what is pending: nothing pending is in a period. */
  lemma UnbilledIsPending(cfg: Settings, s: State)
    requires PayoutsOk(cfg, s)
    ensures Count(s.payouts, Unbilled(Pending)) == Count(s.payouts, InStatus(Pending))
    ensures Cents(s.payouts, Unbilled(Pending)) == Cents(s.payouts, InStatus(Pending))
  {
    TotalsMatch(s.payouts, Unbilled(Pending), s.payouts, InStatus(Pending));
  }

  lemma {:induction false} NothingSelected(ps: seq<Payout>, x: Slice)
    requires forall i | 0 <= i < |ps| :: !Selects(x, ps[i])
    ensures Cents(ps, x) == 0 && Count(ps, x) == 0
  {
    if ps != [] {
      NothingSelected(ps[..|ps| - 1], x);
    }
  }

  lemma {:induction false} PeriodsAppend(ps: seq<Payout>, p: Payout, n: nat)
    ensures CentsOverPeriods(ps + [p], n)
         == CentsOverPeriods(ps, n) + if p.period.Some? && p.period.value < n then p.amount else 0
  {
    if n > 0 {
      PeriodsAppend(ps, p, n - 1);
      assert (ps + [p])[..|ps|] == ps;
    }
  }

  lemma {:induction false} NoPeriods(n: nat)
    ensures CentsOverPeriods([], n) == 0
  {
    if n > 0 {
      NoPeriods(n - 1);
    }
  }

  /** The period totals sum to the paid total. */
  lemma {:induction false} PeriodsSumToPaid(ps: seq<Payout>, n: nat)
    requires forall i | 0 <= i < |ps| :: (ps[i].status == Paid <==> ps[i].period.Some?)
                                         && (ps[i].period.Some? ==> ps[i].period.value < n)
    ensures CentsOverPeriods(ps, n) == Cents(ps, InStatus(Paid))
  {
    if ps == [] {
      NoPeriods(n);
    } else {
      PeriodsSumToPaid(ps[..|ps| - 1], n);
      PeriodsAppend(ps[..|ps| - 1], ps[|ps| - 1], n);
      assert ps == ps[..|ps| - 1] + [ps[|ps| - 1]];
    }
  }

  lemma {:induction false} ExpertsAppend(ps: seq<Payout>, p: Payout, n: nat, status: PayoutStatus)
    ensures CentsOverExperts(ps + [p], n, status)
         == CentsOverExperts(ps, n, status) + if p.expert < n && p.status == status then p.amount else 0
  {
    if n > 0 {
      ExpertsAppend(ps, p, n - 1, status);
      assert (ps + [p])[..|ps|] == ps;
    }
  }

  lemma {:induction false} NoExperts(n: nat, status: PayoutStatus)
    ensures CentsOverExperts([], n, status) == 0
  {
    if n > 0 {
      NoExperts(n - 1, status);
    }
  }

  /** The ledger's rows per expert sum to the total of the status. */
  lemma {:induction false} ExpertsSumToStatus(ps: seq<Payout>, n: nat, status: PayoutStatus)
    requires forall i | 0 <= i < |ps| :: ps[i].expert < n
    ensures CentsOverExperts(ps, n, status) == Cents(ps, InStatus(status))
  {
    if ps == [] {
      NoExperts(n, status);
    } else {
      ExpertsSumToStatus(ps[..|ps| - 1], n, status);
      ExpertsAppend(ps[..|ps| - 1], ps[|ps| - 1], n, status);
      assert ps == ps[..|ps| - 1] + [ps[|ps| - 1]];
    }
  }

  // ----- what one request keeps ---------------------------------------------------------------

  /** The rows this request added. */
  function Added(s: State, s': State): (r: seq<Payout>)
    requires |s.payouts| <= |s'.payouts|
  {
    s'.payouts[|s.payouts|..]
  }

  lemma EvolvedSame(cfg: Settings, s: State, s': State, ev: Service.Event)
    requires Linked(s) && PayoutsEvolve(cfg, s, s', ev)
    ensures SameGrades(s.payouts, s'.payouts[..|s.payouts|]) && s'.payouts == s'.payouts[..|s.payouts|] + Added(s, s')
  {
    hide FreshRow;
  }

  /** The grand total grows by the rows added, and by nothing else. */
  lemma GrandGrows(cfg: Settings, s: State, s': State, ev: Service.Event)
    requires Linked(s) && PayoutsEvolve(cfg, s, s', ev)
    ensures GrandTotal(s'.payouts) == GrandTotal(s.payouts) + Cents(Added(s, s'), Everything)
  {
    hide PayoutsEvolve;
    EvolvedSame(cfg, s, s', ev);
    GrandIsEverything(s.payouts);
    GrandIsEverything(s'.payouts);
    TotalsMatch(s.payouts, Everything, s'.payouts[..|s.payouts|], Everything);
    TotalsAppend(s'.payouts[..|s.payouts|], Added(s, s'), Everything);
  }

  lemma AddedUnbilled(cfg: Settings, s: State, s': State, ev: Service.Event)
    requires Linked(s) && PayoutsEvolve(cfg, s, s', ev)
    ensures forall i | 0 <= i < |Added(s, s')| :: Added(s, s')[i].period == None
  {
    forall i | 0 <= i < |Added(s, s')| ensures Added(s, s')[i].period == None {
      assert FreshRow(cfg, s, s'.payouts[|s.payouts| + i]);
    }
  }

  /** A closed period keeps its rows and its total. */
  lemma ClosedPeriodKept(cfg: Settings, s: State, s': State, ev: Service.Event, k: PeriodId)
    requires Linked(s) && PayoutsEvolve(cfg, s, s', ev) && PayoutsOk(cfg, s) && k < |s.periods|
    ensures Cents(s'.payouts, InPeriod(k)) == Cents(s.payouts, InPeriod(k))
    ensures Count(s'.payouts, InPeriod(k)) == Count(s.payouts, InPeriod(k))
    ensures k < |s'.periods| && s'.periods[k] == s.periods[k]
  {
    hide FreshRow, HasPayout, Entitled;
    EvolvedSame(cfg, s, s', ev);
    AddedUnbilled(cfg, s, s', ev);
    var was := s'.payouts[..|s.payouts|];
    forall i | 0 <= i < |was| ensures Selects(InPeriod(k), s.payouts[i]) == Selects(InPeriod(k), was[i]) {
      assert RowEvolves(s.payouts[i], s'.payouts[i], |s.periods|, ev) && RowOk(s, s.payouts[i]);
    }
    TotalsMatch(s.payouts, InPeriod(k), was, InPeriod(k));
    TotalsAppend(was, Added(s, s'), InPeriod(k));
    NothingSelected(Added(s, s'), InPeriod(k));
  }

  /** Closing a period moves exactly the pending total into it and leaves the other totals alone. */
  lemma CloseMovesPending(cfg: Settings, s: State, name: string)
    requires PayoutsOk(cfg, s) && name !in s.periods
    ensures ClosePeriod(s, name).Ok?
    ensures var a, b := s.payouts, ClosePeriod(s, name).value.payouts;
            && Cents(b, InPeriod(|s.periods|)) == Cents(a, InStatus(Pending))
            && Count(b, InPeriod(|s.periods|)) == Count(a, InStatus(Pending))
            && Cents(b, InStatus(Pending)) == 0 && Count(b, InStatus(Pending)) == 0
            && Cents(b, InStatus(Withheld)) == Cents(a, InStatus(Withheld))
            && Cents(b, InStatus(Paid)) == Cents(a, InStatus(Paid)) + Cents(a, InStatus(Pending))
            && GrandTotal(b) == GrandTotal(a)
  {
    hide HasPayout, Entitled;
    var a, b, k := s.payouts, ClosePeriod(s, name).value.payouts, |s.periods|;
    forall i | 0 <= i < |a|
      ensures b[i] == (if a[i].status == Pending then a[i].(status := Paid, period := Some(k)) else a[i])
      ensures a[i].period != Some(k)
    {
      assert RowOk(s, a[i]);
    }
    TotalsMatch(a, InStatus(Pending), b, InPeriod(k));
    NothingSelected(b, InStatus(Pending));
    TotalsMatch(a, InStatus(Withheld), b, InStatus(Withheld));
    TotalsSplit(a, InStatus(Paid), b, InStatus(Paid), InStatus(Pending));
  }

  /**
   * Every reading of the books agrees: periods with the paid total, experts with each status, unbilled with pending.
   */
  lemma BooksAgree(cfg: Settings, s: State, status: PayoutStatus)
    requires Linked(s) && PayoutsOk(cfg, s)
    ensures CentsOverPeriods(s.payouts, |s.periods|) == Cents(s.payouts, InStatus(Paid))
    ensures CentsOverExperts(s.payouts, |s.experts|, status) == Cents(s.payouts, InStatus(status))
    ensures forall i | 0 <= i < |s.payouts| :: s.payouts[i].status == Pending ==> s.payouts[i].period == None
  {
    hide HasPayout, Entitled;
    forall i | 0 <= i < |s.payouts|
      ensures s.payouts[i].expert < |s.experts|
      ensures s.payouts[i].status == Paid <==> s.payouts[i].period.Some?
      ensures s.payouts[i].period.Some? ==> s.payouts[i].period.value < |s.periods|
    {
      assert RowOk(s, s.payouts[i]);
    }
    PeriodsSumToPaid(s.payouts, |s.periods|);
    ExpertsSumToStatus(s.payouts, |s.experts|, status);
  }
}
