/** The weighted score of a grade as each side stores it: a double, computed with the sum its language has. */
module Weighing {
  import opened Model
  import opened Floats
  import Scores

  function ScoreOf(scores: ScoreSheet, key: Key): (r: real) {
    if key in scores then scores[key] else 0.0
  }

  function Products(ar: Arithmetic, cs: seq<Criterion>, scores: ScoreSheet): (r: seq<Double64>) {
    if cs == [] then [] else
      var c := cs[|cs| - 1];
      Products(ar, cs[..|cs| - 1], scores) + [Mul(ar, Of(ar, ScoreOf(scores, c.key)), Of(ar, c.weight))]
  }

  function Weights(ar: Arithmetic, cs: seq<Criterion>): (r: seq<Double64>) {
    if cs == [] then [] else Weights(ar, cs[..|cs| - 1]) + [Of(ar, cs[|cs| - 1].weight)]
  }

  /** `x or 1.0`, and `x || 1`. */
  function OrOne(x: Double64): (r: Double64)
    ensures r.value != 0.0
  {
    if x.value == 0.0 then ONE else x
  }

  /** grading.py: the quotient of two builtin sums. */
  function ServiceScore(ar: Arithmetic, cs: seq<Criterion>, scores: ScoreSheet): (r: Double64) {
    Div(ar, BuiltinSum(ar, Products(ar, cs, scores)), OrOne(BuiltinSum(ar, Weights(ar, cs))))
  }

  /** platform.ts: the quotient of two reductions. */
  function PortScore(ar: Arithmetic, cs: seq<Criterion>, scores: ScoreSheet): (r: Double64) {
    Div(ar, PlainSum(ar, Products(ar, cs, scores)), OrOne(PlainSum(ar, Weights(ar, cs))))
  }

  /** The exact quotients that the two round. */
  ghost function Quotients(ar: Arithmetic, cs: seq<Criterion>, scores: ScoreSheet): (x: (real, real))
    ensures IsRounded(ar, x.0, ServiceScore(ar, cs, scores)) && IsRounded(ar, x.1, PortScore(ar, cs, scores))
  {
    (Quotient(BuiltinSum(ar, Products(ar, cs, scores)).value, OrOne(BuiltinSum(ar, Weights(ar, cs))).value),
     Quotient(PlainSum(ar, Products(ar, cs, scores)).value, OrOne(PlainSum(ar, Weights(ar, cs))).value))
  }

  /** The two are the same double wherever neither sum is corrected. */
  lemma UncorrectedAgree(ar: Arithmetic, cs: seq<Criterion>, scores: ScoreSheet)
    requires NoCorrection(ar, Products(ar, cs, scores)) && NoCorrection(ar, Weights(ar, cs))
    ensures ServiceScore(ar, cs, scores) == PortScore(ar, cs, scores)
  {
    SumsAgree(ar, Products(ar, cs, scores));
    SumsAgree(ar, Weights(ar, cs));
  }

  // ----- exact weighing -----------------------------------------------------------------------------------

  /** A score times its weight. */
  function Term(c: Criterion, scores: ScoreSheet): (r: real) {
    Product(ScoreOf(scores, c.key), c.weight)
  }

  /** The score, the weight and their product are doubles. */
  predicate ExactTerm(ar: Arithmetic, c: Criterion, scores: ScoreSheet) {
    && ar.round(c.weight) == c.weight && ar.round(ScoreOf(scores, c.key)) == ScoreOf(scores, c.key)
    && ar.round(Term(c, scores)) == Term(c, scores)
  }

  /** No score, weight, product or partial sum is rounded. */
  ghost predicate ExactWeighing(ar: Arithmetic, cs: seq<Criterion>, scores: ScoreSheet) {
    && ExactSum(ar, Products(ar, cs, scores)) && ExactSum(ar, Weights(ar, cs))
    && forall c <- cs :: ExactTerm(ar, c, scores)
  }

  lemma ExactProduct(ar: Arithmetic, c: Criterion, scores: ScoreSheet)
    requires ExactTerm(ar, c, scores)
    ensures Mul(ar, Of(ar, ScoreOf(scores, c.key)), Of(ar, c.weight)).value == Term(c, scores)
    ensures Of(ar, c.weight).value == c.weight
  {
    hide ScoreOf, Product;
    var a, b := Of(ar, ScoreOf(scores, c.key)), Of(ar, c.weight);
    assert a.value == ScoreOf(scores, c.key) && b.value == c.weight;
  }

  lemma {:induction false} TotalsExact(ar: Arithmetic, cs: seq<Criterion>, scores: ScoreSheet)
    requires (forall c <- cs :: c.key in scores) && forall c <- cs :: ExactTerm(ar, c, scores)
    ensures Total(Products(ar, cs, scores)) == Scores.WeightedSum(cs, scores)
    ensures Total(Weights(ar, cs)) == Scores.TotalWeight(cs)
  {
    hide Mul, Of, ExactTerm, ScoreOf, Scores.WeightedSum, Scores.TotalWeight, Term;
    if cs == [] {
      NoTotals(scores);
    } else {
      var front, c := cs[..|cs| - 1], cs[|cs| - 1];
      assert forall d <- front :: d in cs;
      TotalsExact(ar, front, scores);
      assert cs == front + [c];
      SumsAppend(front, c, scores);
      ExactProduct(ar, c, scores);
      TotalAppend(Products(ar, front, scores), Mul(ar, Of(ar, ScoreOf(scores, c.key)), Of(ar, c.weight)));
      TotalAppend(Weights(ar, front), Of(ar, c.weight));
    }
  }

  lemma NoTotals(scores: ScoreSheet)
    ensures Scores.WeightedSum([], scores) == 0.0 && Scores.TotalWeight([]) == 0.0
  {
  }

  lemma TotalAppend(xs: seq<Double64>, x: Double64)
    ensures Total(xs + [x]) == Total(xs) + x.value
  {
    assert (xs + [x])[..|xs|] == xs;
  }

  lemma {:induction false} SumsAppend(cs: seq<Criterion>, c: Criterion, scores: ScoreSheet)
    requires c.key in scores && forall d <- cs :: d.key in scores
    ensures forall d <- cs + [c] :: d.key in scores
    ensures Scores.WeightedSum(cs + [c], scores) == Scores.WeightedSum(cs, scores) + Term(c, scores)
    ensures Scores.TotalWeight(cs + [c]) == Scores.TotalWeight(cs) + c.weight
  {
    hide Scores.WeightedSum, Scores.TotalWeight, Term;
    if cs == [] {
      assert cs + [c] == [c] && [c][1..] == [];
      SumsFirst([c], scores);
      NoTotals(scores);
    } else {
      SumsAppend(cs[1..], c, scores);
      assert (cs + [c])[1..] == cs[1..] + [c] && (cs + [c])[0] == cs[0];
      SumsFirst(cs, scores);
      SumsFirst(cs + [c], scores);
    }
  }

  lemma SumsFirst(cs: seq<Criterion>, scores: ScoreSheet)
    requires cs != [] && forall d <- cs :: d.key in scores
    ensures Scores.WeightedSum(cs, scores) == Term(cs[0], scores) + Scores.WeightedSum(cs[1..], scores)
    ensures Scores.TotalWeight(cs) == cs[0].weight + Scores.TotalWeight(cs[1..])
  {
  }

  /** An exact weighing stores the same double on both sides: the exact weighted score, rounded once. */
  lemma ExactScores(ar: Arithmetic, cs: seq<Criterion>, scores: ScoreSheet)
    requires ExactWeighing(ar, cs, scores) && (forall c <- cs :: c.key in scores)
    ensures ServiceScore(ar, cs, scores) == PortScore(ar, cs, scores)
    ensures ServiceScore(ar, cs, scores).value == ar.round(Scores.Weighted(cs, scores))
  {
    hide Products, Weights, ExactSum, ExactTerm, PlainSum, BuiltinSum, Scores.WeightedSum, Scores.TotalWeight;
    ExactAgrees(ar, Products(ar, cs, scores));
    ExactAgrees(ar, Weights(ar, cs));
    TotalsExact(ar, cs, scores);
  }

  // ----- whole numbers ------------------------------------------------------------------------------------

  /** The magnitudes of all products, and of all weights. */
  function ProductSize(cs: seq<Criterion>, scores: ScoreSheet): (r: real)
    ensures r >= 0.0
  {
    if cs == [] then 0.0 else
      var c := cs[|cs| - 1];
      ProductSize(cs[..|cs| - 1], scores) + AbsReal(Term(c, scores))
  }

  function WeightSize(cs: seq<Criterion>): (r: real)
    ensures r >= 0.0
  {
    if cs == [] then 0.0 else WeightSize(cs[..|cs| - 1]) + AbsReal(cs[|cs| - 1].weight)
  }

  /** Whole weights and scores, of which the products sum up to no more than 2^53. */
  predicate WholeWeighing(cs: seq<Criterion>, scores: ScoreSheet) {
    && ProductSize(cs, scores) <= SAFE as real && WeightSize(cs) <= SAFE as real
    && forall c <- cs :: IsInteger(c.weight) && IsInteger(ScoreOf(scores, c.key))
                         && AbsReal(ScoreOf(scores, c.key)) <= SAFE as real
  }

  lemma {:induction false} IntegerTimes(m: nat, b: real, p: real)
    requires IsInteger(b) && p == m as real * b
    ensures IsInteger(p)
  {
    if m > 0 {
      assert m as real == (m - 1) as real + 1.0;
      IntegerTimes(m - 1, b, p - b);
      IntegerSum(p - b, b);
      assert p - b + b == p;
    } else {
      assert p == 0.0;
    }
  }

  lemma IntegerProduct(a: real, b: real, p: real)
    requires IsInteger(a) && IsInteger(b) && p == a * b
    ensures IsInteger(p)
  {
    var m := a.Floor;
    if m >= 0 {
      IntegerTimes(m, b, p);
    } else {
      assert (-m) as real == -a;
      IntegerTimes(-m, b, -p);
      assert p == (-(-p).Floor) as real;
    }
  }

  lemma IntegerTerm(c: Criterion, scores: ScoreSheet)
    requires IsInteger(c.weight) && IsInteger(ScoreOf(scores, c.key))
    ensures IsInteger(Term(c, scores))
  {
    hide IsInteger;
    IntegerProduct(ScoreOf(scores, c.key), c.weight, Term(c, scores));
  }

  lemma Kept(ar: Arithmetic, x: real)
    requires KeepsIntegers(ar) && IsInteger(x) && AbsReal(x) <= SAFE as real
    ensures ar.round(x) == x
  {
  }

  lemma WholeTerm(ar: Arithmetic, c: Criterion, scores: ScoreSheet)
    requires KeepsIntegers(ar) && IsInteger(c.weight) && IsInteger(ScoreOf(scores, c.key))
    requires AbsReal(c.weight) <= SAFE as real && AbsReal(ScoreOf(scores, c.key)) <= SAFE as real
    requires AbsReal(Term(c, scores)) <= SAFE as real
    ensures ExactTerm(ar, c, scores) && IsInteger(Term(c, scores))
  {
    hide IsInteger, Term, AbsReal, ScoreOf, KeepsIntegers;
    IntegerTerm(c, scores);
    Kept(ar, c.weight);
    Kept(ar, ScoreOf(scores, c.key));
    Kept(ar, Term(c, scores));
  }

  lemma {:induction false} WholeLists(ar: Arithmetic, cs: seq<Criterion>, scores: ScoreSheet)
    requires KeepsIntegers(ar) && WholeWeighing(cs, scores)
    ensures forall c <- cs :: ExactTerm(ar, c, scores)
    ensures AbsTotal(Products(ar, cs, scores)) == ProductSize(cs, scores)
    ensures AbsTotal(Weights(ar, cs)) == WeightSize(cs)
    ensures forall x <- Products(ar, cs, scores) :: IsInteger(x.value)
    ensures forall x <- Weights(ar, cs) :: IsInteger(x.value)
  {
    hide IsInteger, AbsReal, Mul, Of, ExactTerm, KeepsIntegers, Term, ScoreOf;
    if cs != [] {
      var front, c := cs[..|cs| - 1], cs[|cs| - 1];
      assert cs == front + [c];
      AbsNotNegative(Term(c, scores));
      AbsNotNegative(c.weight);
      WholeLists(ar, front, scores);
      WholeTerm(ar, c, scores);
      ExactProduct(ar, c, scores);
      AbsAppend(Products(ar, front, scores), Mul(ar, Of(ar, ScoreOf(scores, c.key)), Of(ar, c.weight)));
      AbsAppend(Weights(ar, front), Of(ar, c.weight));
    }
  }

  lemma AbsNotNegative(x: real)
    ensures AbsReal(x) >= 0.0
  {
  }

  lemma AbsAppend(xs: seq<Double64>, x: Double64)
    ensures AbsTotal(xs + [x]) == AbsTotal(xs) + AbsReal(x.value)
  {
    assert (xs + [x])[..|xs|] == xs;
  }

  /** Whole weights and scores below those bounds: both sides store the exact weighted score, rounded once. */
  lemma WholeScores(ar: Arithmetic, cs: seq<Criterion>, scores: ScoreSheet)
    requires KeepsIntegers(ar) && WholeWeighing(cs, scores) && (forall c <- cs :: c.key in scores)
    ensures ServiceScore(ar, cs, scores) == PortScore(ar, cs, scores)
    ensures ServiceScore(ar, cs, scores).value == ar.round(Scores.Weighted(cs, scores))
  {
    hide ServiceScore, PortScore, Scores.Weighted, ExactSum, Products, Weights, KeepsIntegers, ExactTerm;
    WholeLists(ar, cs, scores);
    IntegersExact(ar, Products(ar, cs, scores));
    IntegersExact(ar, Weights(ar, cs));
    ExactScores(ar, cs, scores);
  }
}
