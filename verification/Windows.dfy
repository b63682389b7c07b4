/** Newest-first windows of yes/no signals: what a bounded window knows about the whole history behind it. */
module Windows {

  function Limit<T>(xs: seq<T>, n: nat): (r: seq<T>) {
    if |xs| <= n then xs else xs[..n]
  }

  // ----- merging the review and the check streams ---------------------------------

  datatype Signal = Signal(at: int, agreed: bool)

  /** Both lists newest first; the result is their concatenation sorted newest first, reviews ahead on a tie. */
  function Merge(a: seq<Signal>, b: seq<Signal>): (r: seq<Signal>) {
    if a == [] then b
    else if b == [] then a
    else if a[0].at >= b[0].at then [a[0]] + Merge(a[1..], b)
    else [b[0]] + Merge(a, b[1..])
  }

  function Flags(xs: seq<Signal>): (r: seq<bool>) {
    seq(|xs|, i requires 0 <= i < |xs| => xs[i].agreed)
  }

  ghost predicate NewestFirst(xs: seq<Signal>) {
    forall i, j :: 0 <= i < j < |xs| ==> xs[i].at >= xs[j].at
  }

  /** Merging sorts: the result holds exactly the rows of both lists, newest first. */
  lemma {:induction false} MergeSorts(a: seq<Signal>, b: seq<Signal>)
    requires NewestFirst(a) && NewestFirst(b)
    ensures NewestFirst(Merge(a, b)) && multiset(Merge(a, b)) == multiset(a) + multiset(b)
  {
    if a == [] || b == [] {
    } else if a[0].at >= b[0].at {
      MergeSorts(a[1..], b);
      MergeStep(a, b, Merge(a[1..], b));
    } else {
      MergeSorts(a, b[1..]);
      MergeStep(b, a, Merge(a, b[1..]));
    }
  }

  lemma MergeStep(a: seq<Signal>, b: seq<Signal>, rest: seq<Signal>)
    requires a != [] && b != [] && a[0].at >= b[0].at
    requires NewestFirst(a) && NewestFirst(b) && NewestFirst(rest)
    requires multiset(rest) == multiset(a[1..]) + multiset(b)
    ensures NewestFirst([a[0]] + rest) && multiset([a[0]] + rest) == multiset(a) + multiset(b)
  {
    assert a == [a[0]] + a[1..];
    forall i | 0 <= i < |rest| ensures a[0].at >= rest[i].at {
      assert rest[i] in multiset(rest);
      assert rest[i] in a[1..] || rest[i] in b;
    }
  }

  /** Cutting both streams to the window before merging loses nothing the window would have kept. */
  lemma {:induction false} TruncatedMerge(a: seq<Signal>, b: seq<Signal>, keepA: nat, keepB: nat, n: nat)
    requires n <= keepA && n <= keepB
    ensures Limit(Merge(Limit(a, keepA), Limit(b, keepB)), n) == Limit(Merge(a, b), n)
    decreases |a| + |b|
  {
    var x, y := Limit(a, keepA), Limit(b, keepB);
    if n == 0 || a == [] || b == [] {
      assert a == [] ==> Merge(x, y) == y;
      assert b == [] ==> Merge(x, y) == x;
    } else if a[0].at >= b[0].at {
      TruncatedMerge(a[1..], b, keepA - 1, keepB, n - 1);
      assert x[1..] == Limit(a[1..], keepA - 1);
      LimitCons(a[0], Merge(x[1..], y), n);
      LimitCons(a[0], Merge(a[1..], b), n);
    } else {
      TruncatedMerge(a, b[1..], keepA, keepB - 1, n - 1);
      assert y[1..] == Limit(b[1..], keepB - 1);
      LimitCons(b[0], Merge(x, y[1..]), n);
      LimitCons(b[0], Merge(a, b[1..]), n);
    }
  }

  lemma LimitCons<T>(x: T, xs: seq<T>, n: nat)
    requires 0 < n
    ensures Limit([x] + xs, n) == [x] + Limit(xs, n - 1)
  {
  }

  /** A signal no older than every other one becomes the newest signal of the merged history. */
  lemma NewestMerges(x: Signal, a: seq<Signal>, b: seq<Signal>)
    requires forall y <- b :: y.at < x.at
    requires forall y <- a :: y.at < x.at
    ensures Merge([x] + a, b) == [x] + Merge(a, b)
    ensures Merge(b, [x] + a) == [x] + Merge(b, a)
  {
    assert ([x] + a)[1..] == a;
    assert b != [] ==> b[0] in b;
  }

  // ----- rates ----------------------------------------------------------------------

  function Agreeing(xs: seq<bool>): (r: nat)
    ensures r <= |xs|
  {
    if xs == [] then 0 else (if xs[0] then 1 else 0) + Agreeing(xs[1..])
  }

  function Rate(xs: seq<bool>): (r: real)
    requires xs != []
  {
    Agreeing(xs) as real / |xs| as real
  }

  lemma {:induction false} AgreeingConcat(a: seq<bool>, b: seq<bool>)
    ensures Agreeing(a + b) == Agreeing(a) + Agreeing(b)
  {
    if a == [] {
      assert a + b == b;
    } else {
      AgreeingConcat(a[1..], b);
      assert (a + b)[1..] == a[1..] + b;
    }
  }

  /** `bound` of n signals. A sum rather than a product, so that every proof below stays linear. */
  ghost function Share(bound: real, n: nat): (r: real) {
    if n == 0 then 0.0 else bound + Share(bound, n - 1)
  }

  lemma {:induction false} ShareIsProduct(bound: real, n: nat)
    ensures Share(bound, n) == bound * n as real
  {
    if n > 0 {
      ShareIsProduct(bound, n - 1);
      var m := (n - 1) as real;
      assert n as real == m + 1.0;
      assert bound * (m + 1.0) == bound * m + bound;
    }
  }

  lemma {:induction false} ShareMonotone(bound: real, m: nat, n: nat)
    requires 0.0 <= bound && m <= n
    ensures Share(bound, m) <= Share(bound, n)
  {
    if m < n {
      ShareMonotone(bound, m, n - 1);
    }
  }

  lemma {:induction false} ShareCompare(a: real, b: real, n: nat)
    ensures a <= b ==> Share(a, n) <= Share(b, n)
    ensures a < b && 0 < n ==> Share(a, n) < Share(b, n)
  {
    if n > 0 {
      ShareCompare(a, b, n - 1);
    }
  }

  lemma {:induction false} ShareDifference(a: real, b: real, n: nat)
    ensures Share(a - b, n) == Share(a, n) - Share(b, n)
  {
    if n > 0 {
      ShareDifference(a, b, n - 1);
    }
  }

  lemma {:induction false} ShareOfAll(n: nat)
    ensures Share(1.0, n) == n as real && Share(0.0, n) == 0.0
  {
    if n > 0 {
      ShareOfAll(n - 1);
    }
  }

  /** A rate compared with a bound, without the division. */
  lemma RateBounds(xs: seq<bool>, bound: real)
    requires xs != []
    ensures Rate(xs) >= bound <==> Agreeing(xs) as real >= Share(bound, |xs|)
    ensures Rate(xs) <= bound <==> Agreeing(xs) as real <= Share(bound, |xs|)
  {
    RatioBounds(Agreeing(xs), |xs|, bound);
  }

  lemma RatioBounds(had: nat, n: nat, bound: real)
    requires 0 < n
    ensures had as real / n as real >= bound <==> had as real >= Share(bound, n)
    ensures had as real / n as real <= bound <==> had as real <= Share(bound, n)
  {
    var r := had as real / n as real;
    assert Share(r, n) == had as real by {
      ShareIsProduct(r, n);
    }
    ShareCompare(r, bound, n);
    ShareCompare(bound, r, n);
  }

  /** After `recent` new signals the window holds all of them, if they fit, and then the newest old ones. */
  lemma WindowAfter(recent: seq<bool>, before: seq<bool>, n: nat)
    requires |recent| <= n
    ensures Limit(recent + before, n) == recent + Limit(Limit(before, n), n - |recent|)
  {
  }

  /** What k new signals can do to a window: its agreements and its disagreements each grow by at most k. */
  lemma WindowDrift(recent: seq<bool>, before: seq<bool>, n: nat)
    requires |recent| <= n
    ensures |Limit(before, n)| <= |Limit(recent + before, n)| <= |Limit(before, n)| + |recent|
    ensures Agreeing(Limit(recent + before, n)) <= Agreeing(Limit(before, n)) + |recent|
    ensures |Limit(recent + before, n)| - Agreeing(Limit(recent + before, n))
         <= |Limit(before, n)| - Agreeing(Limit(before, n)) + |recent|
  {
    WindowAfter(recent, before, n);
    var was, kept := Limit(before, n), Limit(Limit(before, n), n - |recent|);
    AgreeingConcat(recent, kept);
    assert was == kept + was[|kept|..];
    AgreeingConcat(kept, was[|kept|..]);
  }

  // ----- the calibration band --------------------------------------------------------

  /** A window long enough to move a tier whose rate is at or above the promote edge. */
  ghost predicate AtPromoteEdge(xs: seq<bool>, minSamples: nat, promoteAt: real) {
    xs != [] && minSamples <= |xs| && Rate(xs) >= promoteAt
  }

  ghost predicate AtDemoteEdge(xs: seq<bool>, minSamples: nat, demoteAt: real) {
    xs != [] && minSamples <= |xs| && Rate(xs) <= demoteAt
  }

  /** What clearing an edge says about the counts. */
  lemma EdgeCounts(xs: seq<bool>, minSamples: nat, bound: real)
    requires xs != []
    ensures AtPromoteEdge(xs, minSamples, bound) ==> Share(bound, |xs|) <= Agreeing(xs) as real && bound <= 1.0
    ensures AtDemoteEdge(xs, minSamples, bound) ==> Agreeing(xs) as real <= Share(bound, |xs|) && 0.0 <= bound
  {
    RateBounds(xs, bound);
    ShareOfAll(|xs|);
    ShareCompare(1.0, bound, |xs|);
    ShareCompare(bound, 0.0, |xs|);
  }

  /** A share of at most `low` became a share of at least `high` within k signals. */
  lemma Drift(k: nat, n: nat, n': nat, had: nat, has: nat, minSamples: nat, high: real, low: real)
    requires 0.0 <= low < high && minSamples <= n <= n' && has <= had + k
    requires had as real <= Share(low, n) && Share(high, n') <= has as real
    ensures k as real >= Share(high - low, minSamples)
  {
    ShareMonotone(high, n, n');
    ShareDifference(high, low, n);
    ShareMonotone(high - low, minSamples, n);
  }

  /** Agreements fell from a share of at least `high` to at most `low`, disagreements gaining at most k. */
  lemma Falling(k: nat, n: nat, n': nat, had: nat, has: nat, minSamples: nat, high: real, low: real)
    requires low < high <= 1.0 && minSamples <= n <= n' && had <= n && has <= n' && n' - has <= n - had + k
    requires Share(high, n) <= had as real && has as real <= Share(low, n')
    ensures k as real >= Share(high - low, minSamples)
  {
    ShareOfAll(n);
    ShareOfAll(n');
    ShareDifference(1.0, high, n);
    ShareDifference(1.0, low, n');
    Drift(k, n, n', n - had, n' - has, minSamples, 1.0 - low, 1.0 - high);
    assert (1.0 - low) - (1.0 - high) == high - low;
  }

  lemma ShortDistance(bound: real, m: nat, k: nat)
    requires 0.0 <= bound <= 1.0 && m <= k
    ensures Share(bound, m) <= k as real
  {
    ShareMonotone(bound, m, k);
    ShareCompare(bound, 1.0, k);
    ShareOfAll(k);
  }

  lemma FallingWindows(recent: seq<bool>, before: seq<bool>, window: nat, minSamples: nat, promoteAt: real,
        demoteAt: real)
    requires demoteAt < promoteAt
    requires AtPromoteEdge(Limit(before, window), minSamples, promoteAt)
    requires AtDemoteEdge(Limit(recent + before, window), minSamples, demoteAt)
    ensures |recent| as real >= Share(promoteAt - demoteAt, minSamples)
  {
    var xs, ys, k := Limit(before, window), Limit(recent + before, window), |recent|;
    EdgeCounts(xs, minSamples, promoteAt);
    EdgeCounts(ys, minSamples, demoteAt);
    if k >= minSamples {
      ShortDistance(promoteAt - demoteAt, minSamples, k);
    } else {
      WindowDrift(recent, before, window);
      Falling(k, |xs|, |ys|, Agreeing(xs), Agreeing(ys), minSamples, promoteAt, demoteAt);
    }
  }

  lemma ClimbingWindows(recent: seq<bool>, before: seq<bool>, window: nat, minSamples: nat, promoteAt: real,
        demoteAt: real)
    requires demoteAt < promoteAt
    requires AtDemoteEdge(Limit(before, window), minSamples, demoteAt)
    requires AtPromoteEdge(Limit(recent + before, window), minSamples, promoteAt)
    ensures |recent| as real >= Share(promoteAt - demoteAt, minSamples)
  {
    var xs, ys, k := Limit(before, window), Limit(recent + before, window), |recent|;
    EdgeCounts(xs, minSamples, demoteAt);
    EdgeCounts(ys, minSamples, promoteAt);
    if k >= minSamples {
      ShortDistance(promoteAt - demoteAt, minSamples, k);
    } else {
      WindowDrift(recent, before, window);
      Drift(k, |xs|, |ys|, Agreeing(xs), Agreeing(ys), minSamples, promoteAt, demoteAt);
    }
  }

  /** The window cleared one edge of the band, and the other after the recent signals. */
  ghost predicate Crosses(recent: seq<bool>, before: seq<bool>, window: nat, minSamples: nat, promoteAt: real,
        demoteAt: real) {
    var was, now := Limit(before, window), Limit(recent + before, window);
    || (AtPromoteEdge(was, minSamples, promoteAt) && AtDemoteEdge(now, minSamples, demoteAt))
    || (AtDemoteEdge(was, minSamples, demoteAt) && AtPromoteEdge(now, minSamples, promoteAt))
  }

  lemma CrossingShare(recent: seq<bool>, before: seq<bool>, window: nat, minSamples: nat, promoteAt: real,
        demoteAt: real)
    requires demoteAt < promoteAt
    requires Crosses(recent, before, window, minSamples, promoteAt, demoteAt)
    ensures |recent| as real >= Share(promoteAt - demoteAt, minSamples)
  {
    if AtPromoteEdge(Limit(before, window), minSamples, promoteAt)
       && AtDemoteEdge(Limit(recent + before, window), minSamples, demoteAt) {
      FallingWindows(recent, before, window, minSamples, promoteAt, demoteAt);
    } else {
      ClimbingWindows(recent, before, window, minSamples, promoteAt, demoteAt);
    }
  }

  /** Between clearing one edge of the band and clearing the other at least (p - d) * m signals arrive, either way. */
  lemma BandDistance(recent: seq<bool>, before: seq<bool>, window: nat, minSamples: nat, promoteAt: real,
        demoteAt: real)
    requires demoteAt < promoteAt
    requires Crosses(recent, before, window, minSamples, promoteAt, demoteAt)
    ensures |recent| as real >= (promoteAt - demoteAt) * minSamples as real
  {
    CrossingShare(recent, before, window, minSamples, promoteAt, demoteAt);
    ShareIsProduct(promoteAt - demoteAt, minSamples);
  }

  // ----- the attention guard ----------------------------------------------------------

  /** Adding an agreement and dropping at most one signal never lowers a rate. */
  lemma Improve(n: nat, n': nat, had: nat, has: nat)
    requires 0 < n && had <= n
    requires (n' == n + 1 && has == had + 1) || (n' == n && has >= had)
    ensures has as real / n' as real >= had as real / n as real
  {
    var r := had as real / n as real;
    RatioBounds(had, n, r);
    RatioBounds(had, n, 1.0);
    ShareOfAll(n);
    RatioBounds(has, n', r);
  }

  /** A passed check never lowers the rate of the window, whether the window grows or is full. */
  lemma PassNeverLowers(checks: seq<bool>, window: nat)
    requires 0 < window && checks != []
    ensures Rate(Limit([true] + checks, window)) >= Rate(Limit(checks, window))
  {
    var xs, ys := Limit(checks, window), Limit([true] + checks, window);
    var kept := Limit(xs, window - 1);
    WindowAfter([true], checks, window);
    AgreeingConcat([true], kept);
    assert xs == kept + xs[|kept|..];
    AgreeingConcat(kept, xs[|kept|..]);
    Improve(|xs|, |ys|, Agreeing(xs), Agreeing(ys));
  }
}
