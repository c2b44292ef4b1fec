/** Score aggregation over the checkpoints of a run, and the findings most samples of a checkpoint share. */
module EvalScores {
  import opened EvalFindings
  import opened Prelude

  datatype Score = Score(
    total: real,
    memoryUtility: real,
    evolutionQuality: real,
    uncertaintyCalibration: real,
    forgettingQuality: real,
    graphHealth: real,
    latencyPenalty: real,
    tokenCostPenalty: real)

  const NO_SCORE := Score(0.0, 0.0, 0.0, 0.0, 0.0, 0.0, 0.0, 0.0)

  // ---- Aggregation ----

  function Sum(xs: seq<real>): real {
    if xs == [] then 0.0 else Sum(xs[..|xs| - 1]) + xs[|xs| - 1]
  }

  /** The i-th value, from zero, weighs i + 1. */
  function WeightedSum(xs: seq<real>): real {
    if xs == [] then 0.0 else WeightedSum(xs[..|xs| - 1]) + xs[|xs| - 1] * |xs| as real
  }

  function WeightSum(n: nat): (w: real)
    ensures w >= 0.0 && (n > 0 ==> w > 0.0)
  {
    if n == 0 then 0.0 else WeightSum(n - 1) + n as real
  }

  function Weighted(xs: seq<real>): real
    requires xs != []
  {
    WeightedSum(xs) / WeightSum(|xs|)
  }

  function Mean(xs: seq<real>): real
    requires xs != []
  {
    Sum(xs) / |xs| as real
  }

  /** The length of the earlier half, the middle one included. */
  function Split(n: nat): nat {
    (n + 1) / 2
  }

  /** How the later half compares with the earlier half. */
  function Evolution(totals: seq<real>): real
    requires |totals| >= 2
  {
    Clamp(0.5 + (Mean(totals[Split(|totals|)..]) - Mean(totals[..Split(|totals|)])) / 2.0)
  }

  function Scored(turns: seq<Option<Score>>): seq<Score> {
    if turns == [] then []
    else Scored(turns[..|turns| - 1]) + if turns[|turns| - 1].Some? then [turns[|turns| - 1].value] else []
  }

  function Field(scores: seq<Score>, field: Score -> real): seq<real> {
    seq(|scores|, i requires 0 <= i < |scores| => field(scores[i]))
  }

  function Aggregate(turns: seq<Option<Score>>): Score {
    var scores := Scored(turns);
    if scores == [] then NO_SCORE else
    Score(
      Weighted(Field(scores, (s: Score) => s.total)),
      Weighted(Field(scores, (s: Score) => s.memoryUtility)),
      if |scores| >= 2 then Evolution(Field(scores, (s: Score) => s.total))
      else Weighted(Field(scores, (s: Score) => s.evolutionQuality)),
      Weighted(Field(scores, (s: Score) => s.uncertaintyCalibration)),
      Weighted(Field(scores, (s: Score) => s.forgettingQuality)),
      Weighted(Field(scores, (s: Score) => s.graphHealth)),
      Weighted(Field(scores, (s: Score) => s.latencyPenalty)),
      Weighted(Field(scores, (s: Score) => s.tokenCostPenalty)))
  }

  // ---- Bounds ----

  ghost predicate Within(xs: seq<real>, low: real, high: real) {
    forall i :: 0 <= i < |xs| ==> low <= xs[i] <= high
  }

  lemma MulMonotone(a: real, b: real, w: real)
    requires a <= b && w >= 0.0
    ensures a * w <= b * w
  {
  }

  lemma Distribute(x: real, a: real, b: real)
    ensures x * (a + b) == x * a + x * b
  {
  }

  lemma MulStrict(a: real, b: real, w: real)
    requires a < b && w > 0.0
    ensures a * w < b * w
  {
  }

  /** `w` times a value between the bounds. */
  predicate Between(low: real, sum: real, high: real, w: real) {
    low * w <= sum <= high * w
  }

  lemma BetweenNext(low: real, sum: real, high: real, w: real, last: real, n: real)
    requires Between(low, sum, high, w) && low <= last <= high && n >= 0.0
    ensures Between(low, sum + last * n, high, w + n)
  {
    Distribute(low, w, n);
    Distribute(high, w, n);
    MulMonotone(low, last, n);
    MulMonotone(last, high, n);
  }

  lemma {:induction false} WeightedSumWithin(xs: seq<real>, low: real, high: real)
    requires Within(xs, low, high)
    ensures Between(low, WeightedSum(xs), high, WeightSum(|xs|))
  {
    if xs != [] {
      var n, last := |xs| - 1, xs[|xs| - 1];
      WeightedSumWithin(xs[..n], low, high);
      BetweenNext(low, WeightedSum(xs[..n]), high, WeightSum(n), last, |xs| as real);
    }
  }

  lemma DivideWithin(a: real, low: real, high: real, w: real)
    requires w > 0.0 && Between(low, a, high, w)
    ensures low <= a / w <= high
  {
    assert (a / w) * w == a;
    if a / w < low { MulStrict(a / w, low, w); }
    if a / w > high { MulStrict(high, a / w, w); }
  }

  /** A weighted score lies between the least and the greatest of its checkpoints. */
  lemma WeightedWithin(xs: seq<real>, low: real, high: real)
    requires xs != [] && Within(xs, low, high)
    ensures low <= Weighted(xs) <= high
  {
    WeightedSumWithin(xs, low, high);
    DivideWithin(WeightedSum(xs), low, high, WeightSum(|xs|));
  }

  lemma {:induction false} SumWithin(xs: seq<real>, low: real, high: real)
    requires Within(xs, low, high)
    ensures Between(low, Sum(xs), high, |xs| as real)
  {
    if xs != [] {
      var n, last := |xs| - 1, xs[|xs| - 1];
      SumWithin(xs[..n], low, high);
      BetweenNext(low, Sum(xs[..n]), high, n as real, last, 1.0);
      assert n as real + 1.0 == |xs| as real && last * 1.0 == last;
    }
  }

  lemma MeanWithin(xs: seq<real>, low: real, high: real)
    requires xs != [] && Within(xs, low, high)
    ensures low <= Mean(xs) <= high
  {
    SumWithin(xs, low, high);
    DivideWithin(Sum(xs), low, high, |xs| as real);
  }

  // ---- Later counts more ----

  lemma {:induction false} WeightedSumUpdate(xs: seq<real>, i: nat, x: real)
    requires i < |xs|
    ensures WeightedSum(xs[i := x]) == WeightedSum(xs) + (x - xs[i]) * (i + 1) as real
  {
    var n := |xs| - 1;
    if i == n {
      assert xs[i := x][..n] == xs[..n];
      assert x * |xs| as real == xs[i] * |xs| as real + (x - xs[i]) * |xs| as real;
    } else {
      WeightedSumUpdate(xs[..n], i, x);
      assert xs[i := x][..n] == xs[..n][i := x];
    }
  }

  lemma DivideMonotone(a: real, b: real, w: real)
    requires a <= b && w > 0.0
    ensures a / w <= b / w
  {
    assert (a / w) * w == a && (b / w) * w == b;
    DivideWithin(b, a / w, b / w, w);
  }

  lemma Gain(sum: real, x: real, y: real, a: real, b: real)
    requires x >= y && a <= b
    ensures sum + (y - x) * a + (x - y) * b >= sum
  {
    MulMonotone(a, b, x - y);
  }

  lemma LaterSumIsBetter(xs: seq<real>, i: nat, j: nat)
    requires i < j < |xs| && xs[i] >= xs[j]
    ensures WeightedSum(xs[i := xs[j]][j := xs[i]]) >= WeightedSum(xs)
  {
    SwappedSum(xs, i, j);
    Gain(WeightedSum(xs), xs[i], xs[j], (i + 1) as real, (j + 1) as real);
  }

  /** Moving a better score later never lowers the weighted score. */
  lemma LaterIsBetter(xs: seq<real>, i: nat, j: nat)
    requires i < j < |xs| && xs[i] >= xs[j]
    ensures Weighted(xs[i := xs[j]][j := xs[i]]) >= Weighted(xs)
  {
    LaterSumIsBetter(xs, i, j);
    DivideMonotone(WeightedSum(xs), WeightedSum(xs[i := xs[j]][j := xs[i]]), WeightSum(|xs|));
  }

  /** The weights are one, two, three and so on. */
  lemma {:induction false} WeightSumIs(n: nat)
    ensures 2.0 * WeightSum(n) == n as real * (n + 1) as real
  {
    if n > 0 {
      WeightSumIs(n - 1);
      var x := n as real;
      assert (x - 1.0) * x + 2.0 * x == x * (x + 1.0);
    }
  }

  lemma GainOver(sum: real, after: real, x: real, y: real, a: real, b: real, d: real, w: real)
    requires w > 0.0 && b - a == d && after == sum + (y - x) * a + (x - y) * b
    ensures after / w - sum / w == (x - y) * d / w
  {
    assert after == sum + (x - y) * d;
    QuotientDifference(after, sum, w);
  }

  lemma QuotientDifference(a: real, b: real, w: real)
    requires w > 0.0
    ensures a / w - b / w == (a - b) / w
  {
  }

  lemma SwappedSum(xs: seq<real>, i: nat, j: nat)
    requires i < j < |xs|
    ensures WeightedSum(xs[i := xs[j]][j := xs[i]])
            == WeightedSum(xs) + (xs[j] - xs[i]) * (i + 1) as real + (xs[i] - xs[j]) * (j + 1) as real
  {
    WeightedSumUpdate(xs, i, xs[j]);
    WeightedSumUpdate(xs[i := xs[j]], j, xs[i]);
  }

  /** By how much a weighted score of `n` values moves when `x` and `y` change places, `apart` from each other: by their
      difference, as often as they are apart, over the sum of the weights. */
  predicate Moves(before: real, after: real, x: real, y: real, apart: nat, n: nat) {
    n > 0 && after - before == (x - y) * apart as real / WeightSum(n)
  }

  lemma MovesBy(sum: real, after: real, x: real, y: real, i: nat, j: nat, n: nat)
    requires i < j < n && after == sum + (y - x) * (i + 1) as real + (x - y) * (j + 1) as real
    ensures Moves(sum / WeightSum(n), after / WeightSum(n), x, y, j - i, n)
  {
    GainOver(sum, after, x, y, (i + 1) as real, (j + 1) as real, (j - i) as real, WeightSum(n));
  }

  lemma SwapGain(xs: seq<real>, i: nat, j: nat)
    requires i < j < |xs|
    ensures Moves(Weighted(xs), Weighted(xs[i := xs[j]][j := xs[i]]), xs[i], xs[j], j - i, |xs|)
  {
    var swapped := xs[i := xs[j]][j := xs[i]];
    SwappedSum(xs, i, j);
    MovesBy(WeightedSum(xs), WeightedSum(swapped), xs[i], xs[j], i, j, |xs|);
  }

  // ---- Evolution ----

  predicate NonDecreasing(xs: seq<real>) {
    forall i, j :: 0 <= i < j < |xs| ==> xs[i] <= xs[j]
  }

  /** Scores that never fall never count as regressing. */
  lemma ImprovingEvolution(xs: seq<real>)
    requires |xs| >= 2 && NonDecreasing(xs)
    ensures 0.5 <= Evolution(xs) <= 1.0
  {
    var k := Split(|xs|);
    MeanWithin(xs[..k], xs[0], xs[k - 1]);
    MeanWithin(xs[k..], xs[k - 1], xs[|xs| - 1]);
  }

  function Reverse(xs: seq<real>): (r: seq<real>)
    ensures |r| == |xs|
    ensures forall i :: 0 <= i < |xs| ==> r[i] == xs[|xs| - 1 - i]
  {
    seq(|xs|, i requires 0 <= i < |xs| => xs[|xs| - 1 - i])
  }

  lemma {:induction false} SumFront(xs: seq<real>)
    requires xs != []
    ensures Sum(xs) == xs[0] + Sum(xs[1..])
  {
    if |xs| > 1 {
      SumFront(xs[..|xs| - 1]);
      assert xs[..|xs| - 1][1..] == xs[1..][..|xs| - 2];
    }
  }

  lemma {:induction false} SumReverse(xs: seq<real>)
    ensures Sum(Reverse(xs)) == Sum(xs)
  {
    if xs != [] {
      SumReverse(xs[1..]);
      SumFront(xs);
      assert Reverse(xs)[..|xs| - 1] == Reverse(xs[1..]);
    }
  }

  /** Playing an even number of checkpoints backwards mirrors the evolution. */
  lemma ReversedEvolution(xs: seq<real>)
    requires |xs| >= 2 && |xs| % 2 == 0
    ensures Evolution(Reverse(xs)) == 1.0 - Evolution(xs)
  {
    var k := Split(|xs|);
    SumReverse(xs[k..]);
    SumReverse(xs[..k]);
    assert Reverse(xs)[..k] == Reverse(xs[k..]);
    assert Reverse(xs)[k..] == Reverse(xs[..k]);
  }

  lemma Cancel(a: real, b: real, w: real)
    requires a * w == b * w && w > 0.0
    ensures a == b
  {
    if a < b { MulStrict(a, b, w); }
    if b < a { MulStrict(b, a, w); }
  }

  lemma EqualQuotients(s: real, c: real, m: real)
    requires m > 0.0
    ensures s / m == (s + 2.0 * c) / (m + 1.0) <==> s == 2.0 * c * m
  {
    var q, r := s / m, (s + 2.0 * c) / (m + 1.0);
    assert q * m == s && r * (m + 1.0) == s + 2.0 * c;
    Distribute(q, m, 1.0);
    Distribute(2.0 * c, m, 1.0);
    if s == 2.0 * c * m {
      Cancel(q, 2.0 * c, m);
      Cancel(r, 2.0 * c, m + 1.0);
    }
  }

  lemma QuotientSum(a: real, b: real, w: real)
    requires w > 0.0
    ensures a / w + b / w == (a + b) / w
  {
  }

  /** The means `late - early` of a run add up to those of the reversed run exactly when the middle is the mean. */
  lemma BalancedQuotients(a: real, c: real, b: real, w: real)
    requires w > 0.0
    ensures b / w - (a + c) / (w + 1.0) + (a / w - (b + c) / (w + 1.0)) == 0.0 <==> a + b == 2.0 * c * w
  {
    QuotientSum(a, b, w);
    QuotientSum(a + c, b + c, w + 1.0);
    EqualQuotients(a + b, c, w);
    assert a + c + (b + c) == a + b + 2.0 * c;
  }

  lemma {:induction false} SumConcat(a: seq<real>, b: seq<real>)
    ensures Sum(a + b) == Sum(a) + Sum(b)
  {
    if b == [] {
      assert a + b == a;
    } else {
      assert (a + b)[..|a + b| - 1] == a + b[..|b| - 1];
      SumConcat(a, b[..|b| - 1]);
    }
  }

  lemma SumWithMiddle(xs: seq<real>, m: nat)
    requires m < |xs|
    ensures Sum(xs[..m + 1]) == Sum(xs[..m]) + xs[m]
    ensures Sum(xs[m..]) == xs[m] + Sum(xs[m + 1..])
    ensures Sum(xs) == Sum(xs[..m]) + xs[m] + Sum(xs[m + 1..])
  {
    assert xs[..m + 1][..m] == xs[..m];
    SumFront(xs[m..]);
    assert xs[m..][1..] == xs[m + 1..];
    SumConcat(xs[..m], xs[m..]);
    assert xs == xs[..m] + xs[m..];
  }

  lemma ReversedHalves(xs: seq<real>, k: nat)
    requires k <= |xs|
    ensures Sum(Reverse(xs)[..k]) == Sum(xs[|xs| - k..])
    ensures Sum(Reverse(xs)[k..]) == Sum(xs[..|xs| - k])
  {
    SumReverse(xs[|xs| - k..]);
    SumReverse(xs[..|xs| - k]);
    assert Reverse(xs)[..k] == Reverse(xs[|xs| - k..]);
    assert Reverse(xs)[k..] == Reverse(xs[..|xs| - k]);
  }

  /** The evolution before clamping. */
  function Drift(xs: seq<real>): real
    requires |xs| >= 2
  {
    Mean(xs[Split(|xs|)..]) - Mean(xs[..Split(|xs|)])
  }

  /** With totals in [0, 1] the evolution needs no clamping. */
  lemma EvolutionUnclamped(xs: seq<real>)
    requires |xs| >= 2 && Within(xs, 0.0, 1.0)
    ensures Evolution(xs) == 0.5 + Drift(xs) / 2.0
  {
    MeanWithin(xs[Split(|xs|)..], 0.0, 1.0);
    MeanWithin(xs[..Split(|xs|)], 0.0, 1.0);
  }

  /** An odd run both ways: `a` before the middle one, `c`, and `b` after it. */
  lemma OddDrift(xs: seq<real>, m: nat) returns (a: real, c: real, b: real, w: real)
    requires |xs| == 2 * m + 1 && m > 0
    ensures w > 0.0 && c == xs[m] && Mean(xs) == (a + c + b) / (2.0 * w + 1.0)
    ensures Drift(xs) == b / w - (a + c) / (w + 1.0)
    ensures Drift(Reverse(xs)) == a / w - (b + c) / (w + 1.0)
  {
    a, c, b, w := Sum(xs[..m]), xs[m], Sum(xs[m + 1..]), m as real;
    SumWithMiddle(xs, m);
    ReversedHalves(xs, m + 1);
    assert |xs| - (m + 1) == m;
    assert Split(|xs|) == m + 1;
  }

  lemma MiddleIsMean(s: real, c: real, w: real)
    requires w > 0.0
    ensures (s + c) / (2.0 * w + 1.0) == c <==> s == 2.0 * c * w
  {
    var n, q := 2.0 * w + 1.0, (s + c) / (2.0 * w + 1.0);
    assert q * n == s + c;
    Distribute(c, 2.0 * w, 1.0);
    if s == 2.0 * c * w { Cancel(q, c, n); }
  }

  lemma Mirrored(d: real, d': real, mean: real, a: real, c: real, b: real, w: real)
    requires w > 0.0 && mean == (a + c + b) / (2.0 * w + 1.0)
    requires d == b / w - (a + c) / (w + 1.0) && d' == a / w - (b + c) / (w + 1.0)
    ensures d + d' == 0.0 <==> mean == c
  {
    BalancedQuotients(a, c, b, w);
    MiddleIsMean(a + b, c, w);
    assert a + c + b == a + b + c;
  }

  lemma OddDriftIff(xs: seq<real>, m: nat)
    requires |xs| == 2 * m + 1 && m > 0
    ensures Drift(xs) + Drift(Reverse(xs)) == 0.0 <==> xs[m] == Mean(xs)
  {
    var a, c, b, w := OddDrift(xs, m);
    Mirrored(Drift(xs), Drift(Reverse(xs)), Mean(xs), a, c, b, w);
  }

  /** An odd number of checkpoints has a middle one, which counts as early both ways: playing them backwards
      mirrors the evolution if and only if the middle total is the mean of all. */
  lemma OddReversedEvolutionIff(xs: seq<real>, m: nat)
    requires |xs| == 2 * m + 1 && m > 0 && Within(xs, 0.0, 1.0)
    ensures Evolution(Reverse(xs)) == 1.0 - Evolution(xs) <==> xs[m] == Mean(xs)
  {
    EvolutionUnclamped(xs);
    EvolutionUnclamped(Reverse(xs));
    OddDriftIff(xs, m);
  }

  /** A run that only its middle checkpoint fails is not mirrored. */
  lemma OddEvolutionIsNotMirrored()
    ensures Evolution(Reverse([1.0, 0.0, 1.0])) != 1.0 - Evolution([1.0, 0.0, 1.0])
  {
    var xs := [1.0, 0.0, 1.0];
    assert xs[..1] == [1.0] && xs[2..] == [1.0];
    SumWithMiddle(xs, 1);
    OddReversedEvolutionIff(xs, 1);
  }

  // ---- The aggregate of a run ----

  function Totals(turns: seq<Option<Score>>): seq<real> {
    Field(Scored(turns), (s: Score) => s.total)
  }

  /** The total of a run lies between those of its checkpoints, and its evolution in [0, 1]. */
  lemma AggregateWithin(turns: seq<Option<Score>>, low: real, high: real)
    requires Scored(turns) != [] && Within(Totals(turns), low, high)
    ensures low <= Aggregate(turns).total <= high
    ensures |Scored(turns)| >= 2 ==> 0.0 <= Aggregate(turns).evolutionQuality <= 1.0
  {
    WeightedWithin(Totals(turns), low, high);
  }

  /** No field of the one score is greater than that of the other. */
  predicate NoFieldGreater(a: Score, b: Score) {
    && a.total <= b.total && a.memoryUtility <= b.memoryUtility && a.uncertaintyCalibration <= b.uncertaintyCalibration
    && a.forgettingQuality <= b.forgettingQuality && a.graphHealth <= b.graphHealth
    && a.latencyPenalty <= b.latencyPenalty && a.tokenCostPenalty <= b.tokenCostPenalty
  }

  lemma FieldWithin(scores: seq<Score>, field: Score -> real, low: real, high: real)
    requires scores != [] && forall i :: 0 <= i < |scores| ==> low <= field(scores[i]) <= high
    ensures low <= Weighted(Field(scores, field)) <= high
  {
    WeightedWithin(Field(scores, field), low, high);
  }

  ghost predicate AllBetween(scores: seq<Score>, low: Score, high: Score) {
    forall i :: 0 <= i < |scores| ==> NoFieldGreater(low, scores[i]) && NoFieldGreater(scores[i], high)
  }

  lemma MemoryFieldsWithin(scores: seq<Score>, low: Score, high: Score)
    requires scores != [] && AllBetween(scores, low, high)
    ensures low.total <= Weighted(Field(scores, (s: Score) => s.total)) <= high.total
    ensures low.memoryUtility <= Weighted(Field(scores, (s: Score) => s.memoryUtility)) <= high.memoryUtility
    ensures low.forgettingQuality <= Weighted(Field(scores, (s: Score) => s.forgettingQuality)) <= high.forgettingQuality
    ensures low.uncertaintyCalibration <= Weighted(Field(scores, (s: Score) => s.uncertaintyCalibration)) <= high.uncertaintyCalibration
  {
    FieldWithin(scores, (s: Score) => s.total, low.total, high.total);
    FieldWithin(scores, (s: Score) => s.memoryUtility, low.memoryUtility, high.memoryUtility);
    FieldWithin(scores, (s: Score) => s.forgettingQuality, low.forgettingQuality, high.forgettingQuality);
    FieldWithin(scores, (s: Score) => s.uncertaintyCalibration, low.uncertaintyCalibration, high.uncertaintyCalibration);
  }

  lemma OtherFieldsWithin(scores: seq<Score>, low: Score, high: Score)
    requires scores != [] && AllBetween(scores, low, high)
    ensures low.graphHealth <= Weighted(Field(scores, (s: Score) => s.graphHealth)) <= high.graphHealth
    ensures low.latencyPenalty <= Weighted(Field(scores, (s: Score) => s.latencyPenalty)) <= high.latencyPenalty
    ensures low.tokenCostPenalty <= Weighted(Field(scores, (s: Score) => s.tokenCostPenalty)) <= high.tokenCostPenalty
  {
    FieldWithin(scores, (s: Score) => s.graphHealth, low.graphHealth, high.graphHealth);
    FieldWithin(scores, (s: Score) => s.latencyPenalty, low.latencyPenalty, high.latencyPenalty);
    FieldWithin(scores, (s: Score) => s.tokenCostPenalty, low.tokenCostPenalty, high.tokenCostPenalty);
  }

  /** Every field of the aggregate lies between the least and the greatest value its checkpoints have in that field. */
  lemma AggregateFieldsWithin(turns: seq<Option<Score>>, low: Score, high: Score)
    requires Scored(turns) != [] && AllBetween(Scored(turns), low, high)
    ensures NoFieldGreater(low, Aggregate(turns)) && NoFieldGreater(Aggregate(turns), high)
  {
    MemoryFieldsWithin(Scored(turns), low, high);
    OtherFieldsWithin(Scored(turns), low, high);
  }

  /** A single checkpoint keeps its evolution; without any, every field is zero. */
  lemma SmallAggregates(turns: seq<Option<Score>>)
    ensures |Scored(turns)| == 1 ==> Aggregate(turns).evolutionQuality == Scored(turns)[0].evolutionQuality
    ensures Scored(turns) == [] ==> Aggregate(turns) == Score(0.0, 0.0, 0.0, 0.0, 0.0, 0.0, 0.0, 0.0)
  {
    if |Scored(turns)| == 1 {
      var q := Scored(turns)[0].evolutionQuality;
      FieldWithin(Scored(turns), (s: Score) => s.evolutionQuality, q, q);
    }
  }

  /** Two runs that differ in the order of two checkpoints: the one with the better one later is no worse. */
  lemma AggregateLater(a: seq<Option<Score>>, b: seq<Option<Score>>, i: nat, j: nat)
    requires i < j < |Scored(a)| && Scored(a)[i].total >= Scored(a)[j].total
    requires Scored(b) == Scored(a)[i := Scored(a)[j]][j := Scored(a)[i]]
    ensures Aggregate(b).total >= Aggregate(a).total
  {
    var xs := Totals(a);
    assert Totals(b) == xs[i := xs[j]][j := xs[i]];
    LaterIsBetter(xs, i, j);
  }

  lemma FieldSwap(a: seq<Score>, b: seq<Score>, field: Score -> real, i: nat, j: nat)
    requires i < j < |a| && b == a[i := a[j]][j := a[i]]
    ensures Moves(Weighted(Field(a, field)), Weighted(Field(b, field)), field(a[i]), field(a[j]), j - i, |a|)
  {
    var xs := Field(a, field);
    assert |xs| == |a| && xs[i] == field(a[i]) && xs[j] == field(a[j]);
    assert Field(b, field) == xs[i := xs[j]][j := xs[i]];
    SwapGain(xs, i, j);
  }

  /** Of two runs that differ in the order of two checkpoints: by exactly how much each field differs. */
  lemma AggregateSwap(a: seq<Option<Score>>, b: seq<Option<Score>>, i: nat, j: nat)
    requires i < j < |Scored(a)| && Scored(b) == Scored(a)[i := Scored(a)[j]][j := Scored(a)[i]]
    ensures var x, y, p, q, n := Scored(a)[i], Scored(a)[j], Aggregate(a), Aggregate(b), |Scored(a)|;
            && Moves(p.total, q.total, x.total, y.total, j - i, n)
            && Moves(p.memoryUtility, q.memoryUtility, x.memoryUtility, y.memoryUtility, j - i, n)
            && Moves(p.uncertaintyCalibration, q.uncertaintyCalibration, x.uncertaintyCalibration, y.uncertaintyCalibration, j - i, n)
            && Moves(p.forgettingQuality, q.forgettingQuality, x.forgettingQuality, y.forgettingQuality, j - i, n)
            && Moves(p.graphHealth, q.graphHealth, x.graphHealth, y.graphHealth, j - i, n)
            && Moves(p.latencyPenalty, q.latencyPenalty, x.latencyPenalty, y.latencyPenalty, j - i, n)
            && Moves(p.tokenCostPenalty, q.tokenCostPenalty, x.tokenCostPenalty, y.tokenCostPenalty, j - i, n)
  {
    FieldSwap(Scored(a), Scored(b), (s: Score) => s.total, i, j);
    FieldSwap(Scored(a), Scored(b), (s: Score) => s.memoryUtility, i, j);
    FieldSwap(Scored(a), Scored(b), (s: Score) => s.uncertaintyCalibration, i, j);
    FieldSwap(Scored(a), Scored(b), (s: Score) => s.forgettingQuality, i, j);
    FieldSwap(Scored(a), Scored(b), (s: Score) => s.graphHealth, i, j);
    FieldSwap(Scored(a), Scored(b), (s: Score) => s.latencyPenalty, i, j);
    FieldSwap(Scored(a), Scored(b), (s: Score) => s.tokenCostPenalty, i, j);
  }

  /** A run whose checkpoints never get worse is never reported as regressing. */
  lemma AggregateImproves(turns: seq<Option<Score>>)
    requires |Scored(turns)| >= 2 && NonDecreasing(Totals(turns))
    ensures Aggregate(turns).evolutionQuality >= 0.5
  {
    ImprovingEvolution(Totals(turns));
  }

  /** The scored turns are those that have a score, all of them, in order. */
  ghost predicate AreScored(turns: seq<Option<Score>>, scores: seq<Score>, at: seq<nat>) {
    && |scores| == |at|
    && (forall i, j :: 0 <= i < j < |at| ==> at[i] < at[j])
    && (forall i :: 0 <= i < |at| ==> at[i] < |turns| && turns[at[i]] == Some(scores[i]))
    && (forall k :: 0 <= k < |turns| && turns[k].Some? ==> k in at)
  }

  lemma OneMoreScored(turns: seq<Option<Score>>, scores: seq<Score>, at: seq<nat>, turn: Option<Score>)
    requires AreScored(turns, scores, at)
    ensures turn.None? ==> AreScored(turns + [turn], scores, at)
    ensures turn.Some? ==> AreScored(turns + [turn], scores + [turn.value], at + [|turns|])
  {
    if turn.Some? {
      var more := at + [|turns|];
      forall k | 0 <= k < |turns + [turn]| && (turns + [turn])[k].Some? ensures k in more {
        if k == |turns| { assert more[|at|] == k; } else { assert k in at; }
      }
    }
  }

  lemma {:induction false} ScoredAre(turns: seq<Option<Score>>) returns (at: seq<nat>)
    ensures AreScored(turns, Scored(turns), at)
  {
    if turns == [] {
      at := [];
    } else {
      var init, last := turns[..|turns| - 1], turns[|turns| - 1];
      at := ScoredAre(init);
      OneMoreScored(init, Scored(init), at, last);
      assert turns == init + [last];
      if last.Some? { at := at + [|init|]; }
    }
  }

  // ---- Findings most samples share ----

  datatype Reported = AsTheyAre(reports: seq<Report>) | ByFinding(shared: map<Finding, Report>)

  predicate Mentions(sample: seq<Report>, finding: Finding) {
    exists i :: 0 <= i < |sample| && sample[i].finding == finding
  }

  /** How many of the first `n` samples have a report with the finding. */
  function Support(samples: seq<seq<Report>>, n: nat, finding: Finding): nat
    requires n <= |samples|
  {
    if n == 0 then 0 else Support(samples, n - 1, finding) + if Mentions(samples[n - 1], finding) then 1 else 0
  }

  /** The first report with the finding. */
  function FirstIn(sample: seq<Report>, finding: Finding): (r: Report)
    requires Mentions(sample, finding)
    ensures r in sample && r.finding == finding
  {
    if sample[0].finding == finding then sample[0] else FirstIn(sample[1..], finding)
  }

  lemma {:induction false} FirstInPrefix(sample: seq<Report>, n: nat, finding: Finding)
    requires n <= |sample| && Mentions(sample[..n], finding)
    ensures Mentions(sample, finding) && FirstIn(sample, finding) == FirstIn(sample[..n], finding)
  {
    assert sample[..n][0] == sample[0];
    var i :| 0 <= i < n && sample[..n][i].finding == finding;
    assert sample[i].finding == finding;
    if sample[0].finding != finding {
      assert sample[..n][1..] == sample[1..][..n - 1];
      assert sample[1..][..n - 1][i - 1].finding == finding;
      FirstInPrefix(sample[1..], n - 1, finding);
    }
  }

  /** The report with the finding that came first. */
  function FirstOf(samples: seq<seq<Report>>, n: nat, finding: Finding): (r: Report)
    requires n <= |samples| && Support(samples, n, finding) > 0
    ensures r.finding == finding
  {
    if Support(samples, n - 1, finding) > 0 then FirstOf(samples, n - 1, finding) else FirstIn(samples[n - 1], finding)
  }

  /** The support of a finding is the number of samples that mention it. */
  lemma {:induction false} SupportIs(samples: seq<seq<Report>>, n: nat, finding: Finding)
    requires n <= |samples|
    ensures Support(samples, n, finding) == |set i | 0 <= i < n && Mentions(samples[i], finding)|
  {
    var all := set i | 0 <= i < n && Mentions(samples[i], finding);
    if n == 0 {
      assert all == {};
    } else {
      SupportIs(samples, n - 1, finding);
      var before := set i | 0 <= i < n - 1 && Mentions(samples[i], finding);
      assert all == if Mentions(samples[n - 1], finding) then before + {n - 1} else before;
    }
  }

  lemma {:induction false} FirstInIs(sample: seq<Report>, finding: Finding) returns (k: nat)
    requires Mentions(sample, finding)
    ensures k < |sample| && sample[k] == FirstIn(sample, finding) && forall j :: 0 <= j < k ==> sample[j].finding != finding
  {
    if sample[0].finding == finding {
      k := 0;
    } else {
      k := FirstInIs(sample[1..], finding);
      k := k + 1;
    }
  }

  /** The report that stands for a finding is the first of the first sample that mentions it. */
  lemma {:induction false} FirstOfIs(samples: seq<seq<Report>>, n: nat, finding: Finding) returns (i: nat, k: nat)
    requires n <= |samples| && Support(samples, n, finding) > 0
    ensures i < n && k < |samples[i]| && samples[i][k] == FirstOf(samples, n, finding) && samples[i][k].finding == finding
    ensures forall j :: 0 <= j < k ==> samples[i][j].finding != finding
    ensures forall j :: 0 <= j < i ==> !Mentions(samples[j], finding)
  {
    if Support(samples, n - 1, finding) > 0 {
      i, k := FirstOfIs(samples, n - 1, finding);
    } else {
      i := n - 1;
      k := FirstInIs(samples[i], finding);
      SupportIs(samples, n - 1, finding);
      forall j | 0 <= j < i ensures !Mentions(samples[j], finding) {
        var before := set i | 0 <= i < n - 1 && Mentions(samples[i], finding);
        assert before == {};
        assert j !in before;
      }
    }
  }

  /** Counts and first reports after `n` samples. */
  ghost predicate Counted(samples: seq<seq<Report>>, n: nat, counts: map<Finding, (nat, Report)>)
    requires n <= |samples|
  {
    && (forall finding :: finding in counts <==> Support(samples, n, finding) > 0)
    && (forall finding :: finding in counts ==> counts[finding] == (Support(samples, n, finding), FirstOf(samples, n, finding)))
  }

  method CountSample(sample: seq<Report>, before: map<Finding, (nat, Report)>) returns (counts: map<Finding, (nat, Report)>)
    requires forall finding :: finding in before ==> before[finding].1.finding == finding
    ensures forall finding :: finding in counts <==> finding in before || Mentions(sample, finding)
    ensures forall finding :: finding in before ==>
              counts[finding] == (before[finding].0 + (if Mentions(sample, finding) then 1 else 0), before[finding].1)
    ensures forall finding :: finding in counts && finding !in before ==> counts[finding] == (1, FirstIn(sample, finding))
  {
    counts := before;
    var seen: set<Finding> := {};
    for i := 0 to |sample|
      invariant forall finding :: finding in seen <==> Mentions(sample[..i], finding)
      invariant forall finding :: finding in counts <==> finding in before || finding in seen
      invariant forall finding :: finding in before ==>
                  counts[finding] == (before[finding].0 + (if finding in seen then 1 else 0), before[finding].1)
      invariant forall finding :: finding in seen && finding !in before ==>
                  Mentions(sample[..i], finding) && counts[finding] == (1, FirstIn(sample[..i], finding))
    {
      var report := sample[i];
      MentionsStep(sample, i);
      if report.finding !in seen {
        seen := seen + {report.finding};
        counts := counts[report.finding :=
          if report.finding in counts then (counts[report.finding].0 + 1, counts[report.finding].1) else (1, report)];
      }
    }
    assert sample[..|sample|] == sample;
  }

  lemma MentionsStep(sample: seq<Report>, i: nat)
    requires i < |sample|
    ensures forall finding :: Mentions(sample[..i + 1], finding) <==> Mentions(sample[..i], finding) || finding == sample[i].finding
    ensures forall finding :: Mentions(sample[..i], finding) ==>
              Mentions(sample[..i + 1], finding) && FirstIn(sample[..i + 1], finding) == FirstIn(sample[..i], finding)
    ensures !Mentions(sample[..i], sample[i].finding) ==> FirstIn(sample[..i + 1], sample[i].finding) == sample[i]
  {
    forall finding ensures Mentions(sample[..i + 1], finding) <==> Mentions(sample[..i], finding) || finding == sample[i].finding {
      if Mentions(sample[..i], finding) {
        var j :| 0 <= j < i && sample[..i][j].finding == finding;
        assert sample[..i + 1][j].finding == finding;
      }
      if finding == sample[i].finding { assert sample[..i + 1][i].finding == finding; }
      if Mentions(sample[..i + 1], finding) && finding != sample[i].finding {
        var j :| 0 <= j < i + 1 && sample[..i + 1][j].finding == finding;
        assert sample[..i][j].finding == finding;
      }
    }
    forall finding | Mentions(sample[..i], finding)
      ensures Mentions(sample[..i + 1], finding) && FirstIn(sample[..i + 1], finding) == FirstIn(sample[..i], finding)
    {
      assert sample[..i + 1][..i] == sample[..i];
      FirstInPrefix(sample[..i + 1], i, finding);
    }
    if !Mentions(sample[..i], sample[i].finding) { FirstIsLast(sample[..i], sample[i]); assert sample[..i + 1] == sample[..i] + [sample[i]]; }
  }

  lemma {:induction false} FirstIsLast(init: seq<Report>, last: Report)
    requires !Mentions(init, last.finding)
    ensures Mentions(init + [last], last.finding) && FirstIn(init + [last], last.finding) == last
  {
    assert (init + [last])[|init|].finding == last.finding;
    if init != [] {
      assert init[0].finding != last.finding;
      forall i | 0 <= i < |init[1..]| ensures init[1..][i].finding != last.finding { assert init[i + 1].finding != last.finding; }
      FirstIsLast(init[1..], last);
      assert (init + [last])[1..] == init[1..] + [last];
    }
  }

  /** One sample is reported as it is. Of several, exactly the findings that at least half of the samples
      share, rounding up, each once. */
  method MajorityFindings(samples: seq<seq<Report>>) returns (reported: Reported)
    ensures |samples| == 1 ==> reported == AsTheyAre(samples[0])
    ensures |samples| != 1 ==>
              && reported.ByFinding?
              && (forall finding :: finding in reported.shared <==>
                    Support(samples, |samples|, finding) > 0 && 2 * Support(samples, |samples|, finding) >= |samples|)
              && (forall finding :: finding in reported.shared ==> reported.shared[finding] == FirstOf(samples, |samples|, finding))
  {
    if |samples| == 1 {
      return AsTheyAre(samples[0]);
    }
    var counts: map<Finding, (nat, Report)> := map[];
    for n := 0 to |samples|
      invariant Counted(samples, n, counts)
    {
      counts := CountSample(samples[n], counts);
    }
    var threshold := (|samples| + 1) / 2;
    reported := ByFinding(map finding | finding in counts && counts[finding].0 >= threshold :: counts[finding].1);
  }
}
