/** The evaluation roll-up (backend/internal/evaluation/domain/report.go) over the reals: dimension
    scores are means by category, the overall score a weighted average in which dimensions without a
    question are filled neutrally. Iteration over a Go map is iteration in an arbitrary order. */
module Report {
  /** Category names only matter up to equality. */
  type Category = nat

  datatype QuestionScore = QuestionScore(idx: int, score: real, category: Category)

  datatype Dimension = Dimension(score: real, weight: real)

  datatype Report = Report(overall: real, dimensions: map<Category, Dimension>)

  datatype Result = Ok(report: Report) | WeightsError

  const TOLERANCE: real := 0.000000001

  function Clamp(v: real, lo: real, hi: real): real {
    if v > hi then hi else if v < lo then lo else v
  }

  function Abs(x: real): real { if x < 0.0 then -x else x }

  /** Rounds half away from zero. */
  function Round(x: real): int {
    if x >= 0.0 then (x + 0.5).Floor else -((-x + 0.5).Floor)
  }

  // -------------------------------------------------- sums over a finite map

  ghost function SumOver(keys: set<Category>, m: map<Category, real>): real
    requires keys <= m.Keys
  {
    if keys == {} then 0.0
    else
      var k :| k in keys;
      m[k] + SumOver(keys - {k}, m)
  }

  /** The sum does not depend on which key is taken first. */
  lemma {:induction false} SumTakes(keys: set<Category>, m: map<Category, real>, k: Category)
    requires keys <= m.Keys && k in keys
    ensures SumOver(keys, m) == m[k] + SumOver(keys - {k}, m)
    decreases keys
  {
    var j :| j in keys && SumOver(keys, m) == m[j] + SumOver(keys - {j}, m);
    if j != k {
      SumTakes(keys - {j}, m, k);
      SumTakes(keys - {k}, m, j);
      assert keys - {j} - {k} == keys - {k} - {j};
    }
  }

  lemma SumAdds(keys: set<Category>, m: map<Category, real>, k: Category)
    requires keys + {k} <= m.Keys && k !in keys
    ensures SumOver(keys + {k}, m) == SumOver(keys, m) + m[k]
  {
    SumTakes(keys + {k}, m, k);
    assert keys + {k} - {k} == keys;
  }

  // ------------------------------------------------------------- the report

  function Total(qs: seq<QuestionScore>, cat: Category): real {
    if qs == [] then 0.0
    else
      var q := qs[|qs| - 1];
      Total(qs[..|qs| - 1], cat) + if q.category == cat then q.score else 0.0
  }

  function Number(qs: seq<QuestionScore>, cat: Category): nat {
    if qs == [] then 0
    else
      var q := qs[|qs| - 1];
      Number(qs[..|qs| - 1], cat) + if q.category == cat then 1 else 0
  }

  /** The score of a category as the loop updates it, question by question. `RunningMeanIsMean` shows
      that it is the arithmetic mean. */
  function Mean(qs: seq<QuestionScore>, cat: Category): real {
    if qs == [] then 0.0
    else
      var q := qs[|qs| - 1];
      var before := qs[..|qs| - 1];
      if q.category == cat then Updated(Mean(before, cat), Number(before, cat), q.score) else Mean(before, cat)
  }

  function Updated(score: real, n: nat, x: real): real {
    (score * n as real + x) / (n + 1) as real
  }

  function Scored(qs: seq<QuestionScore>, weights: map<Category, real>): set<Category> {
    set k | k in weights && Number(qs, k) > 0
  }

  function Weighed(mean: real, weight: real): real { Clamp(mean, 0.0, 100.0) * weight }

  function Contributions(qs: seq<QuestionScore>, weights: map<Category, real>): map<Category, real> {
    map k | k in weights :: Weighed(Mean(qs, k), weights[k])
  }

  ghost function Average(qs: seq<QuestionScore>, weights: map<Category, real>): real {
    var scored := Scored(qs, weights);
    var weightSum := SumOver(scored, weights);
    if weightSum > 0.0 then SumOver(scored, Contributions(qs, weights)) / weightSum else 0.0
  }

  ghost function Evaluated(qs: seq<QuestionScore>, weights: map<Category, real>): Result {
    if Abs(SumOver(weights.Keys, weights) - 1.0) > TOLERANCE then WeightsError
    else
      var average := Average(qs, weights);
      Ok(Report(Round(average * 100.0) as real / 100.0,
                map k | k in weights :: Dimension(if Number(qs, k) > 0 then Mean(qs, k) else average, weights[k])))
  }

  /** The running update is the arithmetic mean. */
  lemma {:induction false} RunningMeanIsMean(qs: seq<QuestionScore>, cat: Category)
    ensures Mean(qs, cat) == if Number(qs, cat) == 0 then 0.0 else Total(qs, cat) / Number(qs, cat) as real
    ensures Number(qs, cat) == 0 ==> Total(qs, cat) == 0.0
  {
    if qs != [] {
      var before := qs[..|qs| - 1];
      RunningMeanIsMean(before, cat);
      var n := Number(before, cat);
      if n > 0 {
        Undivide(Total(before, cat), n as real);
      }
    }
  }

  lemma Undivide(total: real, n: real)
    requires n > 0.0
    ensures total / n * n == total
  {}

  method SumWeights(weights: map<Category, real>) returns (sum: real)
    ensures sum == SumOver(weights.Keys, weights)
  {
    sum := 0.0;
    var left := weights.Keys;
    while left != {}
      invariant left <= weights.Keys && sum == SumOver(weights.Keys - left, weights)
      decreases left
    {
      var k :| k in left;
      SumAdds(weights.Keys - left, weights, k);
      assert weights.Keys - left + {k} == weights.Keys - (left - {k});
      sum := sum + weights[k];
      left := left - {k};
    }
    assert weights.Keys - left == weights.Keys;
  }

  function Lookup(counts: map<Category, nat>, k: Category): nat { if k in counts then counts[k] else 0 }

  lemma Appended(qs: seq<QuestionScore>, i: nat)
    requires i < |qs|
    ensures var cat := qs[i].category;
            && Number(qs[..i + 1], cat) == Number(qs[..i], cat) + 1
            && Mean(qs[..i + 1], cat) == Updated(Mean(qs[..i], cat), Number(qs[..i], cat), qs[i].score)
    ensures forall k | k != qs[i].category ::
              Number(qs[..i + 1], k) == Number(qs[..i], k) && Mean(qs[..i + 1], k) == Mean(qs[..i], k)
  {
    assert qs[..i + 1][..i] == qs[..i];
  }

  /** Running means by category. */
  method ScoreDimensions(qs: seq<QuestionScore>, weights: map<Category, real>)
    returns (dims: map<Category, Dimension>, counts: map<Category, nat>)
    ensures dims == map k | k in weights :: Dimension(Mean(qs, k), weights[k])
    ensures forall k | k in weights :: Lookup(counts, k) == Number(qs, k)
  {
    dims := map k | k in weights :: Dimension(0.0, weights[k]);
    counts := map[];
    for i := 0 to |qs|
      invariant dims.Keys == weights.Keys
      invariant forall k | k in weights :: dims[k] == Dimension(Mean(qs[..i], k), weights[k])
      invariant forall k | k in weights :: Lookup(counts, k) == Number(qs[..i], k)
    {
      var q := qs[i];
      Appended(qs, i);
      if q.category !in dims {
        continue;
      }
      var d := dims[q.category];
      var n := Lookup(counts, q.category) + 1;
      counts := counts[q.category := n];
      dims := dims[q.category := d.(score := Updated(d.score, n - 1, q.score))];
    }
    assert qs[..|qs|] == qs;
  }

  /** Weighted total and weight of the scored dimensions. */
  method WeighScored(qs: seq<QuestionScore>, weights: map<Category, real>, dims: map<Category, Dimension>,
                     counts: map<Category, nat>)
    returns (total: real, weightSum: real)
    requires dims == map k | k in weights :: Dimension(Mean(qs, k), weights[k])
    requires forall k | k in weights :: Lookup(counts, k) == Number(qs, k)
    ensures total == SumOver(Scored(qs, weights), Contributions(qs, weights))
    ensures weightSum == SumOver(Scored(qs, weights), weights)
  {
    total, weightSum := 0.0, 0.0;
    ghost var scored := Scored(qs, weights);
    var left := dims.Keys;
    while left != {}
      invariant left <= weights.Keys
      invariant total == SumOver(scored - left, Contributions(qs, weights))
      invariant weightSum == SumOver(scored - left, weights)
      decreases left
    {
      var k :| k in left;
      var d := dims[k];
      if Lookup(counts, k) > 0 {
        SumAdds(scored - left, Contributions(qs, weights), k);
        SumAdds(scored - left, weights, k);
        assert scored - left + {k} == scored - (left - {k});
        total := total + Weighed(d.score, d.weight);
        weightSum := weightSum + d.weight;
      } else {
        assert scored - left == scored - (left - {k});
      }
      left := left - {k};
    }
    assert scored - left == scored;
  }

  method Evaluate(qs: seq<QuestionScore>, weights: map<Category, real>) returns (r: Result)
    ensures r == Evaluated(qs, weights)
  {
    var sum := SumWeights(weights);
    if Abs(sum - 1.0) > TOLERANCE {
      return WeightsError;
    }
    var dims, counts := ScoreDimensions(qs, weights);
    var total, weightSum := WeighScored(qs, weights, dims, counts);
    var averageScore := 0.0;
    if weightSum > 0.0 {
      averageScore := total / weightSum;
    }
    dims := FillMissing(qs, weights, dims, counts, averageScore);
    return Ok(Report(Round(averageScore * 100.0) as real / 100.0, dims));
  }

  /** Neutral fill of the dimensions without a question. */
  method FillMissing(qs: seq<QuestionScore>, weights: map<Category, real>, scored: map<Category, Dimension>,
                     counts: map<Category, nat>, averageScore: real) returns (dims: map<Category, Dimension>)
    requires scored == map k | k in weights :: Dimension(Mean(qs, k), weights[k])
    requires forall k | k in weights :: Lookup(counts, k) == Number(qs, k)
    ensures dims == map k | k in weights :: Dimension(if Number(qs, k) > 0 then Mean(qs, k) else averageScore, weights[k])
  {
    dims := scored;
    var left := dims.Keys;
    while left != {}
      invariant left <= weights.Keys && dims.Keys == weights.Keys
      invariant forall k | k in weights ::
                  dims[k] == Dimension(if Number(qs, k) == 0 && k !in left then averageScore else Mean(qs, k), weights[k])
      decreases left
    {
      var k :| k in left;
      if Lookup(counts, k) == 0 {
        dims := dims[k := dims[k].(score := averageScore)];
      }
      left := left - {k};
    }
  }

  // ----------------------------------------------------------------- bounds

  predicate NonNegative(weights: map<Category, real>) {
    forall k | k in weights :: weights[k] >= 0.0
  }

  lemma {:induction false} SumNonNegative(keys: set<Category>, m: map<Category, real>)
    requires keys <= m.Keys && NonNegative(m)
    ensures SumOver(keys, m) >= 0.0
    decreases keys
  {
    if keys != {} {
      var k :| k in keys;
      SumTakes(keys, m, k);
      SumNonNegative(keys - {k}, m);
    }
  }

  lemma Scale(a: real, b: real, w: real)
    requires a <= b && w >= 0.0
    ensures a * w <= b * w
  {}

  lemma AddBetween(lo: real, hi: real, c: real, w: real, cs: real, ws: real, cTotal: real, wTotal: real)
    requires Between(lo, hi, c, w) && Between(lo, hi, cs, ws) && cTotal == c + cs && wTotal == w + ws
    ensures Between(lo, hi, cTotal, wTotal)
  {
    Distribute(lo, w, ws);
    Distribute(hi, w, ws);
  }

  predicate Between(lo: real, hi: real, c: real, w: real) { lo * w <= c <= hi * w }

  lemma {:induction false} SumBetween(keys: set<Category>, c: map<Category, real>, w: map<Category, real>,
                                       lo: real, hi: real)
    requires keys <= c.Keys && keys <= w.Keys
    requires forall k | k in keys :: Between(lo, hi, c[k], w[k])
    ensures Between(lo, hi, SumOver(keys, c), SumOver(keys, w))
    decreases keys
  {
    if keys != {} {
      var k :| k in keys;
      SumTakes(keys, w, k);
      SumTakes(keys, c, k);
      SumBetween(keys - {k}, c, w, lo, hi);
      AddBetween(lo, hi, c[k], w[k], SumOver(keys - {k}, c), SumOver(keys - {k}, w), SumOver(keys, c), SumOver(keys, w));
    }
  }

  lemma WeighedIsBetween(mean: real, w: real, lo: real, hi: real)
    requires w >= 0.0 && lo <= Clamp(mean, 0.0, 100.0) <= hi
    ensures Between(lo, hi, Weighed(mean, w), w)
  {
    Scale(lo, Clamp(mean, 0.0, 100.0), w);
    Scale(Clamp(mean, 0.0, 100.0), hi, w);
  }

  lemma WeighedBetween(qs: seq<QuestionScore>, weights: map<Category, real>, lo: real, hi: real)
    requires NonNegative(weights)
    requires forall k | k in Scored(qs, weights) :: lo <= Clamp(Mean(qs, k), 0.0, 100.0) <= hi
    ensures var scored := Scored(qs, weights);
            Between(lo, hi, SumOver(scored, Contributions(qs, weights)), SumOver(scored, weights))
  {
    var c := Contributions(qs, weights);
    forall k | k in Scored(qs, weights) ensures Between(lo, hi, c[k], weights[k]) {
      WeighedIsBetween(Mean(qs, k), weights[k], lo, hi);
    }
    SumBetween(Scored(qs, weights), Contributions(qs, weights), weights, lo, hi);
  }

  lemma Distribute(c: real, a: real, b: real)
    ensures c * (a + b) == c * a + c * b
  {}

  lemma NotPositive(a: real, w: real)
    requires w > 0.0 && a * w <= 0.0
    ensures a <= 0.0
  {}

  lemma Divide(lo: real, x: real, hi: real, w: real)
    requires w > 0.0 && lo * w <= x <= hi * w
    ensures lo <= x / w <= hi
  {
    var q := x / w;
    assert q * w == x;
    Distribute(w, lo, -q);
    NotPositive(lo - q, w);
    Distribute(w, q, -hi);
    NotPositive(q - hi, w);
  }

  /** The unrounded overall score lies in 0..100 and, when some scored dimension carries weight,
      between any bounds of the clamped scored means, hence between the least and the greatest. */
  lemma OverallIsBounded(qs: seq<QuestionScore>, weights: map<Category, real>, lo: real, hi: real)
    requires NonNegative(weights)
    requires forall k | k in Scored(qs, weights) :: lo <= Clamp(Mean(qs, k), 0.0, 100.0) <= hi
    ensures 0.0 <= Average(qs, weights) <= 100.0
    ensures SumOver(Scored(qs, weights), weights) > 0.0 ==> lo <= Average(qs, weights) <= hi
  {
    var scored := Scored(qs, weights);
    WeighedBetween(qs, weights, lo, hi);
    WeighedBetween(qs, weights, 0.0, 100.0);
    AverageBetween(SumOver(scored, Contributions(qs, weights)), SumOver(scored, weights), lo, hi);
    AverageBetween(SumOver(scored, Contributions(qs, weights)), SumOver(scored, weights), 0.0, 100.0);
  }

  /** When no scored dimension carries weight the overall score is zero. */
  lemma NoScoredWeight(qs: seq<QuestionScore>, weights: map<Category, real>)
    requires Evaluated(qs, weights).Ok? && SumOver(Scored(qs, weights), weights) <= 0.0
    ensures Evaluated(qs, weights).report.overall == 0.0
  {
    assert Average(qs, weights) * 100.0 == 0.0;
    assert Round(0.0) == 0;
  }

  lemma AverageBetween(total: real, weightSum: real, lo: real, hi: real)
    requires Between(lo, hi, total, weightSum)
    ensures weightSum > 0.0 ==> lo <= total / weightSum <= hi
  {
    if weightSum > 0.0 {
      Divide(lo, total, hi, weightSum);
    }
  }

  /** The reported overall score is the unrounded one to within half a hundredth, still in 0..100. */
  lemma RoundingIsClose(qs: seq<QuestionScore>, weights: map<Category, real>)
    requires NonNegative(weights) && Evaluated(qs, weights).Ok?
    ensures var overall := Evaluated(qs, weights).report.overall;
            0.0 <= overall <= 100.0 && Abs(overall - Average(qs, weights)) <= 0.005
  {
    OverallIsBounded(qs, weights, 0.0, 100.0);
    RoundedHundredths(Average(qs, weights));
  }

  lemma RoundedHundredths(x: real)
    requires 0.0 <= x <= 100.0
    ensures var shown := Round(x * 100.0) as real / 100.0; 0.0 <= shown <= 100.0 && Abs(shown - x) <= 0.005
  {
    var n := Round(x * 100.0);
    assert n as real <= x * 100.0 + 0.5 < n as real + 1.0;
  }

  // ----------------------------------------------------------- neutral fill

  /** What each dimension of the report contributes, clamped, with its weight. */
  ghost function Filled(qs: seq<QuestionScore>, weights: map<Category, real>): map<Category, real> {
    FilledWith(qs, weights, Average(qs, weights))
  }

  /** `average` filled in for the dimensions outside `scored`. */
  function FilledWith(qs: seq<QuestionScore>, weights: map<Category, real>, average: real): map<Category, real> {
    map k | k in weights :: if Number(qs, k) > 0 then Weighed(Mean(qs, k), weights[k]) else average * weights[k]
  }

  /** A sum splits at any subset of its keys. */
  lemma {:induction false} SumSplits(keys: set<Category>, sub: set<Category>, m: map<Category, real>, c: map<Category, real>)
    requires sub <= keys <= m.Keys && sub <= c.Keys && forall k | k in sub :: m[k] == c[k]
    ensures SumOver(keys, m) == SumOver(sub, c) + SumOver(keys - sub, m)
    decreases sub
  {
    if sub == {} {
      assert keys - sub == keys;
    } else {
      var k :| k in sub;
      SumTakes(keys, m, k);
      SumTakes(sub, c, k);
      SumSplits(keys - {k}, sub - {k}, m, c);
      assert keys - {k} - (sub - {k}) == keys - sub;
    }
  }

  predicate IsProduct(x: real, a: real, b: real) { x == a * b }

  lemma {:induction false} SumScales(keys: set<Category>, m: map<Category, real>, w: map<Category, real>, a: real)
    requires keys <= m.Keys && keys <= w.Keys && forall k | k in keys :: IsProduct(m[k], a, w[k])
    ensures IsProduct(SumOver(keys, m), a, SumOver(keys, w))
    decreases keys
  {
    if keys != {} {
      var k :| k in keys;
      SumTakes(keys, m, k);
      SumTakes(keys, w, k);
      SumScales(keys - {k}, m, w, a);
      Gather(m[k], SumOver(keys - {k}, m), w[k], SumOver(keys - {k}, w), a);
    }
  }

  lemma {:induction false} WeightlessSum(keys: set<Category>, c: map<Category, real>, w: map<Category, real>)
    requires keys <= w.Keys && keys <= c.Keys && NonNegative(w) && SumOver(keys, w) <= 0.0
    requires forall k | k in keys && w[k] == 0.0 :: c[k] == 0.0
    ensures SumOver(keys, c) == 0.0 && SumOver(keys, w) == 0.0
    decreases keys
  {
    if keys != {} {
      var k :| k in keys;
      SumTakes(keys, w, k);
      SumTakes(keys, c, k);
      SumNonNegative(keys - {k}, w);
      WeightlessSum(keys - {k}, c, w);
    }
  }

  /** Neutral fill neither penalises nor boosts: the weighted sum over all dimensions, the missing ones
      filled, is the overall score, up to the tolerance on the weights. */
  lemma NeutralFillIsNeutral(qs: seq<QuestionScore>, weights: map<Category, real>)
    requires NonNegative(weights) && Evaluated(qs, weights).Ok?
    ensures Abs(SumOver(weights.Keys, Filled(qs, weights)) - Average(qs, weights)) <= 100.0 * TOLERANCE
  {
    OverallIsBounded(qs, weights, 0.0, 100.0);
    TotalIsAverage(qs, weights);
    FilledWithError(qs, weights, Average(qs, weights));
  }

  lemma Quotient(total: real, w: real, q: real)
    requires w > 0.0 && q == total / w
    ensures IsProduct(total, q, w)
  {}

  lemma TotalIsAverage(qs: seq<QuestionScore>, weights: map<Category, real>)
    requires NonNegative(weights)
    ensures IsProduct(SumOver(Scored(qs, weights), Contributions(qs, weights)), Average(qs, weights),
                      SumOver(Scored(qs, weights), weights))
  {
    var scored := Scored(qs, weights);
    if SumOver(scored, weights) > 0.0 {
      Quotient(SumOver(scored, Contributions(qs, weights)), SumOver(scored, weights), Average(qs, weights));
    } else {
      WeightlessSum(scored, Contributions(qs, weights), weights);
    }
  }

  /** The filled total is the scored total and the average for the weight of the rest. */
  lemma FilledTotal(qs: seq<QuestionScore>, weights: map<Category, real>, average: real)
    ensures var scored, filled := Scored(qs, weights), FilledWith(qs, weights, average);
            && SumOver(weights.Keys, filled)
               == SumOver(scored, Contributions(qs, weights)) + SumOver(weights.Keys - scored, filled)
            && SumOver(weights.Keys, weights) == SumOver(scored, weights) + SumOver(weights.Keys - scored, weights)
  {
    SumSplits(weights.Keys, Scored(qs, weights), FilledWith(qs, weights, average), Contributions(qs, weights));
    SumSplits(weights.Keys, Scored(qs, weights), weights, weights);
  }

  lemma FilledWithError(qs: seq<QuestionScore>, weights: map<Category, real>, average: real)
    requires 0.0 <= average <= 100.0 && Abs(SumOver(weights.Keys, weights) - 1.0) <= TOLERANCE
    requires IsProduct(SumOver(Scored(qs, weights), Contributions(qs, weights)), average,
                       SumOver(Scored(qs, weights), weights))
    ensures Abs(SumOver(weights.Keys, FilledWith(qs, weights, average)) - average) <= 100.0 * TOLERANCE
  {
    var missing, filled := weights.Keys - Scored(qs, weights), FilledWith(qs, weights, average);
    FilledTotal(qs, weights, average);
    SumScales(missing, filled, weights, average);
    FillError(SumOver(Scored(qs, weights), Contributions(qs, weights)), SumOver(missing, filled),
              SumOver(Scored(qs, weights), weights), SumOver(missing, weights), average);
  }

  /** `average` over the scored weight and over the missing weight. */
  lemma FillError(total: real, neutral: real, weightSum: real, missing: real, average: real)
    requires 0.0 <= average <= 100.0 && Abs(weightSum + missing - 1.0) <= TOLERANCE
    requires IsProduct(total, average, weightSum) && IsProduct(neutral, average, missing)
    ensures Abs(total + neutral - average) <= 100.0 * TOLERANCE
  {
    Gather(total, neutral, weightSum, missing, average);
    NearlyOnce(total + neutral, weightSum + missing, average);
  }

  lemma Gather(total: real, neutral: real, weightSum: real, missing: real, average: real)
    requires IsProduct(total, average, weightSum) && IsProduct(neutral, average, missing)
    ensures IsProduct(total + neutral, average, weightSum + missing)
  {
    Distribute(average, weightSum, missing);
  }

  lemma NearlyOnce(x: real, w: real, average: real)
    requires 0.0 <= average <= 100.0 && Abs(w - 1.0) <= TOLERANCE && IsProduct(x, average, w)
    ensures Abs(x - average) <= 100.0 * TOLERANCE
  {
    var e := w - 1.0;
    Distribute(average, e, 1.0);
    assert x == average * e + average;
    ScaleError(average, e);
  }

  lemma ScaleError(a: real, e: real)
    requires 0.0 <= a <= 100.0 && Abs(e) <= TOLERANCE
    ensures Abs(a * e) <= 100.0 * TOLERANCE
  {
    if e >= 0.0 {
      ScaleSmall(a, e);
    } else {
      ScaleSmall(a, -e);
      Negate(a, e);
    }
  }

  lemma ScaleSmall(a: real, e: real)
    requires 0.0 <= a <= 100.0 && 0.0 <= e <= TOLERANCE
    ensures 0.0 <= a * e <= 100.0 * TOLERANCE
  {
    Scale(a, 100.0, e);
    Scale(0.0, a, e);
    assert a * e <= 100.0 * e;
    assert 100.0 * e <= 100.0 * TOLERANCE;
  }

  lemma Negate(a: real, e: real)
    ensures a * -e == -(a * e)
  {}

  // ------------------------------------------------ the dimensions as reported

  /** What the reported dimensions add up to, each clamped and weighted. */
  function Shares(dims: map<Category, Dimension>): map<Category, real> {
    map k | k in dims :: Weighed(dims[k].score, dims[k].weight)
  }

  /** Each category of the rubric is reported with its weight; a scored one with the mean of its questions,
      one without a question within half a hundredth of the overall score. */
  lemma ReportedScores(qs: seq<QuestionScore>, weights: map<Category, real>, k: Category)
    requires NonNegative(weights) && Evaluated(qs, weights).Ok?
    ensures var report := Evaluated(qs, weights).report;
            && report.dimensions.Keys == weights.Keys
            && (k in weights ==>
                  && report.dimensions[k].weight == weights[k]
                  && (Number(qs, k) > 0 ==> report.dimensions[k].score == Total(qs, k) / Number(qs, k) as real)
                  && (Number(qs, k) == 0 ==> Abs(report.dimensions[k].score - report.overall) <= 0.005))
  {
    RunningMeanIsMean(qs, k);
    RoundingIsClose(qs, weights);
  }

  lemma ShareIsFilled(qs: seq<QuestionScore>, weights: map<Category, real>, average: real, k: Category)
    requires 0.0 <= average <= 100.0 && k in weights
    ensures Weighed(if Number(qs, k) > 0 then Mean(qs, k) else average, weights[k]) == FilledWith(qs, weights, average)[k]
  {
    assert Clamp(average, 0.0, 100.0) == average;
  }

  lemma SharesAreFilled(qs: seq<QuestionScore>, weights: map<Category, real>)
    requires NonNegative(weights) && Evaluated(qs, weights).Ok?
    ensures Shares(Evaluated(qs, weights).report.dimensions) == Filled(qs, weights)
  {
    OverallIsBounded(qs, weights, 0.0, 100.0);
    forall k | k in weights
      ensures Shares(Evaluated(qs, weights).report.dimensions)[k] == Filled(qs, weights)[k]
    {
      ShareIsFilled(qs, weights, Average(qs, weights), k);
    }
  }

  /** The report adds up: its dimensions, clamped and weighted, sum to its unrounded overall score up to the
      tolerance on the weights, and to the overall score shown within half a hundredth more. */
  lemma ReportAddsUp(qs: seq<QuestionScore>, weights: map<Category, real>)
    requires NonNegative(weights) && Evaluated(qs, weights).Ok?
    ensures var report := Evaluated(qs, weights).report;
            var sum := SumOver(report.dimensions.Keys, Shares(report.dimensions));
            && Abs(sum - Average(qs, weights)) <= 100.0 * TOLERANCE
            && Abs(sum - report.overall) <= 0.005 + 100.0 * TOLERANCE
  {
    SharesAreFilled(qs, weights);
    NeutralFillIsNeutral(qs, weights);
    RoundingIsClose(qs, weights);
    ReportedScores(qs, weights, 0);
  }

  // ------------------------------------------------- order and unknown names

  /** The report reads the questions only through these. */
  predicate SameScores(a: seq<QuestionScore>, b: seq<QuestionScore>, weights: map<Category, real>) {
    forall k | k in weights :: Number(a, k) == Number(b, k) && Total(a, k) == Total(b, k)
  }

  lemma SameScoresSameReport(a: seq<QuestionScore>, b: seq<QuestionScore>, weights: map<Category, real>)
    requires SameScores(a, b, weights)
    ensures Evaluated(a, weights) == Evaluated(b, weights) && Average(a, weights) == Average(b, weights)
  {
    assert Scored(a, weights) == Scored(b, weights);
    forall k | k in weights ensures Mean(a, k) == Mean(b, k) {
      assert Number(a, k) == Number(b, k);
      RunningMeanIsMean(a, k);
      RunningMeanIsMean(b, k);
    }
    assert Contributions(a, weights) == Contributions(b, weights);
  }

  function Without(qs: seq<QuestionScore>, i: nat): seq<QuestionScore>
    requires i < |qs|
  {
    qs[..i] + qs[i + 1..]
  }

  lemma WithoutSnoc(qs: seq<QuestionScore>, i: nat)
    requires i < |qs| - 1
    ensures var n := |qs| - 1; Without(qs, i) == Without(qs[..n], i) + [qs[n]]
  {}

  lemma Snoc(qs: seq<QuestionScore>, q: QuestionScore, k: Category)
    ensures Number(qs + [q], k) == Number(qs, k) + if q.category == k then 1 else 0
    ensures Total(qs + [q], k) == Total(qs, k) + if q.category == k then q.score else 0.0
  {
    assert (qs + [q])[..|qs|] == qs;
  }

  lemma {:induction false} TakenOut(qs: seq<QuestionScore>, i: nat, k: Category)
    requires i < |qs|
    ensures Number(qs, k) == Number(Without(qs, i), k) + if qs[i].category == k then 1 else 0
    ensures Total(qs, k) == Total(Without(qs, i), k) + if qs[i].category == k then qs[i].score else 0.0
  {
    var n := |qs| - 1;
    Snoc(qs[..n], qs[n], k);
    assert qs == qs[..n] + [qs[n]];
    if i == n {
      assert Without(qs, i) == qs[..n];
    } else {
      TakenOut(qs[..n], i, k);
      WithoutSnoc(qs, i);
      Snoc(Without(qs[..n], i), qs[n], k);
    }
  }

  /** The last element of one arrangement stands somewhere in the other; the rests match. */
  lemma MatchLast(a: seq<QuestionScore>, b: seq<QuestionScore>) returns (i: nat)
    requires multiset(a) == multiset(b) && a != []
    ensures i < |b| && b[i] == a[|a| - 1]
    ensures multiset(a[..|a| - 1]) == multiset(Without(b, i))
  {
    var n := |a| - 1;
    var last, init := a[n], a[..n];
    assert a == init + [last];
    assert last in multiset(b);
    i :| 0 <= i < |b| && b[i] == last;
    Split(b, i);
    assert multiset(init) == multiset(a) - multiset{last};
  }

  lemma Split(b: seq<QuestionScore>, i: nat)
    requires i < |b|
    ensures multiset(Without(b, i)) == multiset(b) - multiset{b[i]}
  {
    assert b == b[..i] + [b[i]] + b[i + 1..];
  }

  lemma {:induction false} PermutationKeepsScores(a: seq<QuestionScore>, b: seq<QuestionScore>, k: Category)
    requires multiset(a) == multiset(b)
    ensures Number(a, k) == Number(b, k) && Total(a, k) == Total(b, k)
    decreases |a|
  {
    if a == [] {
      assert |multiset(b)| == 0;
    } else {
      var i := MatchLast(a, b);
      PermutationKeepsScores(a[..|a| - 1], Without(b, i), k);
      TakenOut(b, i, k);
    }
  }

  /** Asking the same questions in another order, or adding questions of categories outside the report
      anywhere, changes no score. */
  lemma OrderDoesNotMatter(a: seq<QuestionScore>, b: seq<QuestionScore>, weights: map<Category, real>)
    requires multiset(a) == multiset(b)
    ensures Evaluated(a, weights) == Evaluated(b, weights)
  {
    forall k | k in weights ensures Number(a, k) == Number(b, k) && Total(a, k) == Total(b, k) {
      PermutationKeepsScores(a, b, k);
    }
    SameScoresSameReport(a, b, weights);
  }

  lemma UnknownCategoriesDoNotMatter(before: seq<QuestionScore>, q: QuestionScore, after: seq<QuestionScore>,
                                     weights: map<Category, real>)
    requires q.category !in weights
    ensures Evaluated(before + [q] + after, weights) == Evaluated(before + after, weights)
  {
    var all := before + [q] + after;
    var i := |before|;
    assert Without(all, i) == before + after && all[i] == q;
    forall k | k in weights
      ensures Number(all, k) == Number(before + after, k) && Total(all, k) == Total(before + after, k)
    {
      TakenOut(all, i, k);
    }
    SameScoresSameReport(all, before + after, weights);
  }
}
