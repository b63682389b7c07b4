/** The score of a grade, the spread of a round and the grade a round picks: exact arithmetic over the reals. */
module Scores {
  import opened Wrappers
  import opened Model

  /** A grade of one task together with the decision a reviewer took on it, if any. */
  datatype Entry = Entry(
    id: GradeId,
    expert: ExpertId,
    rubric: RubricId,
    score: real,
    at: int,
    decision: Option<Decision>)

  predicate Unrejected(e: Entry) {
    e.decision != Some(Reject)
  }

  function Abs(x: real): (r: real) {
    if x < 0.0 then -x else x
  }

  // ----- weighted score of one grade -------------------------------------------

  function TotalWeight(cs: seq<Criterion>): (w: real) {
    if cs == [] then 0.0 else cs[0].weight + TotalWeight(cs[1..])
  }

  function WeightedSum(cs: seq<Criterion>, scores: ScoreSheet): (w: real)
    requires forall c <- cs :: c.key in scores
  {
    if cs == [] then 0.0 else scores[cs[0].key] * cs[0].weight + WeightedSum(cs[1..], scores)
  }

  function Weighted(cs: seq<Criterion>, scores: ScoreSheet): (w: real)
    requires forall c <- cs :: c.key in scores
  {
    var total := TotalWeight(cs);
    WeightedSum(cs, scores) / (if total == 0.0 then 1.0 else total)
  }

  lemma Scale(a: real, b: real, w: real)
    requires a <= b && 0.0 <= w
    ensures a * w <= b * w
  {
  }

  /** The weighted sum of giving every criterion the same score. */
  ghost function FlatSum(cs: seq<Criterion>, score: real): (w: real) {
    if cs == [] then 0.0 else score * cs[0].weight + FlatSum(cs[1..], score)
  }

  lemma {:induction false} FlatSumIsProduct(cs: seq<Criterion>, score: real)
    ensures FlatSum(cs, score) == score * TotalWeight(cs)
  {
    if cs != [] {
      FlatSumIsProduct(cs[1..], score);
      Distribute(score, cs[0].weight, TotalWeight(cs[1..]));
    }
  }

  lemma {:induction false} WeightedSumBounds(cs: seq<Criterion>, scores: ScoreSheet, lo: real, hi: real)
    requires forall c <- cs :: c.key in scores && 0.0 <= c.weight && lo <= scores[c.key] <= hi
    ensures FlatSum(cs, lo) <= WeightedSum(cs, scores) <= FlatSum(cs, hi)
  {
    if cs != [] {
      var c := cs[0];
      WeightedSumBounds(cs[1..], scores, lo, hi);
      Scale(lo, scores[c.key], c.weight);
      Scale(scores[c.key], hi, c.weight);
    }
  }

  lemma Distribute(a: real, b: real, c: real)
    ensures a * (b + c) == a * b + a * c
  {
  }

  lemma Cancel(a: real, b: real, w: real)
    requires 0.0 < w && a * w <= b * w
    ensures a <= b
  {
  }

  lemma DivideBounds(sum: real, total: real, lo: real, hi: real)
    requires 0.0 < total && lo * total <= sum <= hi * total
    ensures lo <= sum / total <= hi
  {
    var q := sum / total;
    assert q * total == sum;
    Cancel(lo, q, total);
    Cancel(q, hi, total);
  }

  /** With non-negative weights of positive total, a weighted score stays inside any scale that holds every score. */
  lemma WeightedWithinScale(cs: seq<Criterion>, scores: ScoreSheet, lo: real, hi: real)
    requires forall c <- cs :: c.key in scores && 0.0 <= c.weight && lo <= scores[c.key] <= hi
    requires 0.0 < TotalWeight(cs)
    ensures lo <= Weighted(cs, scores) <= hi
  {
    WeightedSumBounds(cs, scores, lo, hi);
    FlatSumIsProduct(cs, lo);
    FlatSumIsProduct(cs, hi);
    DivideBounds(WeightedSum(cs, scores), TotalWeight(cs), lo, hi);
  }

  lemma {:induction false} WeightedSumDifference(cs: seq<Criterion>, a: ScoreSheet, b: ScoreSheet, delta: real)
    requires forall c <- cs :: c.key in a && c.key in b && 0.0 <= c.weight && a[c.key] <= b[c.key] + delta
    ensures WeightedSum(cs, a) <= WeightedSum(cs, b) + FlatSum(cs, delta)
  {
    if cs != [] {
      var c := cs[0];
      WeightedSumDifference(cs[1..], a, b, delta);
      ScaleSum(a[c.key], b[c.key], delta, c.weight);
    }
  }

  lemma ScaleSum(a: real, b: real, delta: real, w: real)
    requires a <= b + delta && 0.0 <= w
    ensures a * w <= b * w + delta * w
  {
    Scale(a, b + delta, w);
    Distribute(w, b, delta);
  }

  /** Two graders at most `delta` apart on every criterion are at most `delta` apart in the weighted score. */
  lemma WeightedDifference(cs: seq<Criterion>, a: ScoreSheet, b: ScoreSheet, delta: real)
    requires forall c <- cs :: c.key in a && c.key in b && 0.0 <= c.weight && Abs(a[c.key] - b[c.key]) <= delta
    requires 0.0 < TotalWeight(cs)
    ensures Abs(Weighted(cs, a) - Weighted(cs, b)) <= delta
  {
    WeightedSumDifference(cs, a, b, delta);
    WeightedSumDifference(cs, b, a, delta);
    FlatSumIsProduct(cs, delta);
    QuotientDifference(WeightedSum(cs, a), WeightedSum(cs, b), TotalWeight(cs), delta);
    QuotientDifference(WeightedSum(cs, b), WeightedSum(cs, a), TotalWeight(cs), delta);
  }

  lemma QuotientDifference(a: real, b: real, total: real, delta: real)
    requires 0.0 < total && a <= b + delta * total
    ensures a / total <= b / total + delta
  {
    var x, y := a / total, b / total;
    assert x * total == a && y * total == b;
    Distribute(total, y, delta);
    Cancel(x, y + delta, total);
  }

  // ----- a round: spread, mean and the closest grade -----------------------------

  function Sum(es: seq<Entry>): (r: real) {
    if es == [] then 0.0 else es[0].score + Sum(es[1..])
  }

  function Mean(es: seq<Entry>): (r: real)
    requires es != []
  {
    Sum(es) / |es| as real
  }

  function MaxScore(es: seq<Entry>): (r: real)
    requires es != []
    ensures exists e <- es :: e.score == r
    ensures forall e <- es :: e.score <= r
  {
    if |es| == 1 then es[0].score else
      var m := MaxScore(es[1..]);
      assert forall e <- es :: e == es[0] || e in es[1..];
      if es[0].score > m then es[0].score else m
  }

  function MinScore(es: seq<Entry>): (r: real)
    requires es != []
    ensures exists e <- es :: e.score == r
    ensures forall e <- es :: r <= e.score
  {
    if |es| == 1 then es[0].score else
      var m := MinScore(es[1..]);
      assert forall e <- es :: e == es[0] || e in es[1..];
      if es[0].score < m then es[0].score else m
  }

  lemma {:induction false} ScoreAttained(es: seq<Entry>) returns (hi: nat, lo: nat)
    requires es != []
    ensures hi < |es| && es[hi].score == MaxScore(es)
    ensures lo < |es| && es[lo].score == MinScore(es)
  {
    if |es| == 1 {
      hi, lo := 0, 0;
    } else {
      var h, l := ScoreAttained(es[1..]);
      hi := if es[0].score > MaxScore(es[1..]) then 0 else h + 1;
      lo := if es[0].score < MinScore(es[1..]) then 0 else l + 1;
    }
  }

  function Spread(es: seq<Entry>): (r: real)
    requires es != []
  {
    MaxScore(es) - MinScore(es)
  }

  /** The comparison key of the pick: distance from the mean, then the earlier submission, then the id. */
  predicate Before(a: Entry, b: Entry, mean: real) {
    var da, db := Abs(a.score - mean), Abs(b.score - mean);
    da < db || (da == db && (a.at < b.at || (a.at == b.at && a.id <= b.id)))
  }

  function Nearest(es: seq<Entry>, mean: real): (r: Entry)
    requires es != []
    ensures r in es
    ensures forall e <- es :: Before(r, e, mean)
  {
    if |es| == 1 then es[0] else
      var m := Nearest(es[1..], mean);
      assert forall e <- es :: e == es[0] || e in es[1..];
      if Before(es[0], m, mean) then es[0] else m
  }

  function ClosestToMean(es: seq<Entry>): (r: Entry)
    requires es != []
  {
    Nearest(es, Mean(es))
  }

  lemma {:induction false} SumBounds(es: seq<Entry>, lo: real, hi: real)
    requires forall e <- es :: lo <= e.score <= hi
    ensures lo * |es| as real <= Sum(es) <= hi * |es| as real
  {
    if es != [] {
      SumBounds(es[1..], lo, hi);
      var n := |es[1..]| as real;
      assert |es| as real == n + 1.0;
      assert lo * (n + 1.0) == lo * n + lo && hi * (n + 1.0) == hi * n + hi;
    }
  }

  lemma MeanBounds(es: seq<Entry>, lo: real, hi: real)
    requires es != [] && forall e <- es :: lo <= e.score <= hi
    ensures lo <= Mean(es) <= hi
  {
    SumBounds(es, lo, hi);
    DivideBounds(Sum(es), |es| as real, lo, hi);
  }

  lemma MeanWithinScores(es: seq<Entry>)
    requires es != []
    ensures MinScore(es) <= Mean(es) <= MaxScore(es)
  {
    MeanBounds(es, MinScore(es), MaxScore(es));
  }

  /** The picked grade lies within half the spread of the mean. */
  lemma PickWithinHalfSpread(es: seq<Entry>)
    requires es != []
    ensures Abs(ClosestToMean(es).score - Mean(es)) <= Spread(es) / 2.0
  {
    MeanWithinScores(es);
    var mean, pick := Mean(es), ClosestToMean(es);
    var low :| low in es && low.score == MinScore(es);
    var high :| high in es && high.score == MaxScore(es);
    assert Before(pick, low, mean) && Before(pick, high, mean);
  }

  /** Any two grades of a round are no further apart than its spread. */
  lemma WithinSpread(es: seq<Entry>, a: Entry, b: Entry)
    requires a in es && b in es
    ensures Abs(a.score - b.score) <= Spread(es)
  {
    assert MinScore(es) <= a.score <= MaxScore(es);
    assert MinScore(es) <= b.score <= MaxScore(es);
  }

  /**
   * The spread is the least bound on pairwise distance: graders pairwise within `delta` have spread at most `delta`.
   */
  lemma SpreadIsLeast(es: seq<Entry>, delta: real)
    requires es != []
    ensures Spread(es) <= delta <==> forall a, b :: a in es && b in es ==> Abs(a.score - b.score) <= delta
  {
    if Spread(es) <= delta {
      forall a, b | a in es && b in es ensures Abs(a.score - b.score) <= delta {
        WithinSpread(es, a, b);
      }
    } else {
      var low :| low in es && low.score == MinScore(es);
      var high :| high in es && high.score == MaxScore(es);
      assert Abs(high.score - low.score) > delta;
    }
  }

  lemma {:induction false} SumRemove(es: seq<Entry>, i: nat)
    requires i < |es|
    ensures Sum(es) == es[i].score + Sum(es[..i] + es[i + 1..])
  {
    if i == 0 {
      assert es[..0] + es[1..] == es[1..];
    } else {
      SumRemove(es[1..], i - 1);
      var rest := es[..i] + es[i + 1..];
      assert rest[1..] == es[1..][..i - 1] + es[1..][i..];
    }
  }

  lemma RemoveAt(es: seq<Entry>, i: nat)
    requires i < |es|
    ensures multiset(es[..i] + es[i + 1..]) == multiset(es) - multiset{es[i]}
  {
    assert es == es[..i] + [es[i]] + es[i + 1..];
  }

  /** The place in b of the first element of a, and what removing both leaves. */
  lemma MatchHead(a: seq<Entry>, b: seq<Entry>) returns (i: nat)
    requires a != [] && multiset(a) == multiset(b)
    ensures i < |b| && b[i] == a[0] && multiset(a[1..]) == multiset(b[..i] + b[i + 1..])
  {
    assert a[0] in multiset(b);
    i :| 0 <= i < |b| && b[i] == a[0];
    RemoveAt(b, i);
    assert a == [a[0]] + a[1..];
    assert multiset(a[1..]) == multiset(a) - multiset{a[0]};
  }

  lemma {:induction false} SumPermuted(a: seq<Entry>, b: seq<Entry>)
    requires multiset(a) == multiset(b)
    ensures Sum(a) == Sum(b) && |a| == |b|
  {
    assert |multiset(a)| == |a| && |multiset(b)| == |b|;
    if a != [] {
      var i := MatchHead(a, b);
      SumRemove(b, i);
      SumPermuted(a[1..], b[..i] + b[i + 1..]);
    }
  }

  ghost predicate DistinctIds(es: seq<Entry>) {
    forall i, j :: 0 <= i < j < |es| ==> es[i].id != es[j].id
  }

  /** The pick does not depend on the order in which the grades are read. */
  lemma PickOrderIndependent(a: seq<Entry>, b: seq<Entry>)
    requires a != [] && multiset(a) == multiset(b) && DistinctIds(a)
    ensures b != [] && ClosestToMean(a) == ClosestToMean(b)
  {
    SumPermuted(a, b);
    var mean := Mean(a);
    var x, y := Nearest(a, mean), Nearest(b, mean);
    assert x in multiset(b) && y in multiset(a);
    assert Before(x, y, mean) && Before(y, x, mean);
    assert x.id == y.id;
  }
}
