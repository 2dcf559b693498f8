/** Case and suite scoring: pass/fail, pass rate, per-dimension means, the
    weighted overall score and the suite aggregate. */
module Scorer {
  import opened Wrappers
  import opened Values
  import opened Schema

  // ----- flattening -----

  /** The assertion results of `turns`, turn after turn. */
  function TurnAssertions(turns: seq<TurnResult>): seq<AssertionResult> {
    if turns == [] then [] else TurnAssertions(turns[..|turns| - 1]) + turns[|turns| - 1].assertions
  }

  /** Every assertion result of a case: each turn's, in turn order, then the final ones. */
  function Flattened(cr: CaseResult): seq<AssertionResult> {
    TurnAssertions(cr.turns) + cr.finalAssertions
  }

  /** The number of assertion results the turns hold. */
  function AssertionCount(turns: seq<TurnResult>): nat {
    if turns == [] then 0 else AssertionCount(turns[..|turns| - 1]) + |turns[|turns| - 1].assertions|
  }

  lemma {:induction false} TurnAssertionsLength(turns: seq<TurnResult>)
    ensures |TurnAssertions(turns)| == AssertionCount(turns)
  {
    if turns != [] {
      TurnAssertionsLength(turns[..|turns| - 1]);
    }
  }

  /** The length of the flattened list is the sum of the list lengths. */
  lemma FlattenedLength(cr: CaseResult)
    ensures |Flattened(cr)| == AssertionCount(cr.turns) + |cr.finalAssertions|
  {
    TurnAssertionsLength(cr.turns);
  }

  /** Assertion `k` of turn `i` sits after all assertions of the turns before it. */
  lemma {:induction false} FlattenedTurnOrder(turns: seq<TurnResult>, i: nat, k: nat)
    requires i < |turns| && k < |turns[i].assertions|
    ensures AssertionCount(turns[..i]) + k < |TurnAssertions(turns)|
    ensures TurnAssertions(turns)[AssertionCount(turns[..i]) + k] == turns[i].assertions[k]
  {
    var n := |turns|;
    var init := turns[..n - 1];
    TurnAssertionsLength(init);
    TurnAssertionsLength(turns);
    if i == n - 1 {
      assert turns[..i] == init;
    } else {
      assert init[..i] == turns[..i];
      FlattenedTurnOrder(init, i, k);
      CountMonotone(init, i + 1);
      assert init[..i + 1][..i] == turns[..i];
    }
  }

  lemma {:induction false} CountMonotone(turns: seq<TurnResult>, j: nat)
    requires j <= |turns|
    ensures AssertionCount(turns[..j]) <= AssertionCount(turns)
  {
    if j < |turns| {
      var init := turns[..|turns| - 1];
      assert turns[..j] == init[..j];
      CountMonotone(init, j);
    } else {
      assert turns[..j] == turns;
    }
  }

  /** Final assertion `k` comes after every turn assertion. */
  lemma FlattenedFinalOrder(cr: CaseResult, k: nat)
    requires k < |cr.finalAssertions|
    ensures AssertionCount(cr.turns) + k < |Flattened(cr)|
    ensures Flattened(cr)[AssertionCount(cr.turns) + k] == cr.finalAssertions[k]
  {
    TurnAssertionsLength(cr.turns);
  }

  /** `_flatten_assertions`: extends a list with each turn's assertions, then the final ones. */
  method FlattenAssertions(cr: CaseResult) returns (results: seq<AssertionResult>)
    ensures results == Flattened(cr)
  {
    results := [];
    var i := 0;
    while i < |cr.turns|
      invariant 0 <= i <= |cr.turns|
      invariant results == TurnAssertions(cr.turns[..i])
    {
      assert cr.turns[..i + 1][..i] == cr.turns[..i];
      results := results + cr.turns[i].assertions;
      i := i + 1;
    }
    assert cr.turns[..i] == cr.turns;
    results := results + cr.finalAssertions;
  }

  // ----- pass rate -----

  function PassedCount(rs: seq<AssertionResult>): (n: nat)
    ensures n <= |rs|
  {
    if rs == [] then 0 else PassedCount(rs[..|rs| - 1]) + (if rs[|rs| - 1].passed then 1 else 0)
  }

  predicate AllPassed(rs: seq<AssertionResult>) {
    forall i :: 0 <= i < |rs| ==> rs[i].passed
  }

  /** Every result passed exactly when the passed count is the whole length. */
  lemma {:induction false} PassedCountFull(rs: seq<AssertionResult>)
    ensures PassedCount(rs) == |rs| <==> AllPassed(rs)
  {
    if rs != [] {
      var init := rs[..|rs| - 1];
      PassedCountFull(init);
      assert forall i :: 0 <= i < |init| ==> init[i] == rs[i];
    }
  }

  // ----- dimension means -----

  /** The scores of the results tagged with dimension `d` that carry a score, in order. */
  function DimScores(rs: seq<AssertionResult>, d: string): (xs: seq<real>)
    ensures |xs| <= |rs|
  {
    if rs == [] then []
    else
      var last := rs[|rs| - 1];
      DimScores(rs[..|rs| - 1], d) + (if last.dimension == Some(d) && last.score.Some? then [last.score.value] else [])
  }

  /** Some result is tagged with `d` and carries a score. */
  predicate Tagged(rs: seq<AssertionResult>, d: string) {
    exists i :: 0 <= i < |rs| && rs[i].dimension == Some(d) && rs[i].score.Some?
  }

  lemma {:induction false} DimScoresNonEmpty(rs: seq<AssertionResult>, d: string)
    ensures |DimScores(rs, d)| > 0 <==> Tagged(rs, d)
  {
    if rs != [] {
      var init := rs[..|rs| - 1];
      DimScoresNonEmpty(init, d);
      assert forall i :: 0 <= i < |init| ==> init[i] == rs[i];
      if Tagged(rs, d) && !(rs[|rs| - 1].dimension == Some(d) && rs[|rs| - 1].score.Some?) {
        var i :| 0 <= i < |rs| && rs[i].dimension == Some(d) && rs[i].score.Some?;
        assert i < |init| && init[i] == rs[i];
      }
    }
  }

  /** Every tagged score of `rs` lies in [0, 1]. */
  predicate ScoresInUnit(rs: seq<AssertionResult>) {
    forall i :: 0 <= i < |rs| && rs[i].score.Some? ==> 0.0 <= rs[i].score.value <= 1.0
  }

  predicate InUnit(xs: seq<real>) {
    forall i :: 0 <= i < |xs| ==> 0.0 <= xs[i] <= 1.0
  }

  lemma {:induction false} DimScoresInUnit(rs: seq<AssertionResult>, d: string)
    requires ScoresInUnit(rs)
    ensures InUnit(DimScores(rs, d))
  {
    if rs != [] {
      var init := rs[..|rs| - 1];
      assert forall i :: 0 <= i < |init| ==> init[i] == rs[i];
      DimScoresInUnit(init, d);
    }
  }

  function Sum(xs: seq<real>): real {
    if xs == [] then 0.0 else Sum(xs[..|xs| - 1]) + xs[|xs| - 1]
  }

  /** The arithmetic mean of a non-empty list. */
  function Mean(xs: seq<real>): real
    requires |xs| > 0
  {
    Sum(xs) / |xs| as real
  }

  lemma {:induction false} SumBounds(xs: seq<real>)
    requires InUnit(xs)
    ensures 0.0 <= Sum(xs) <= |xs| as real
  {
    if xs != [] {
      var init := xs[..|xs| - 1];
      assert forall i :: 0 <= i < |init| ==> init[i] == xs[i];
      SumBounds(init);
    }
  }

  /** A mean of values in [0, 1] lies in [0, 1]. */
  lemma MeanInUnit(xs: seq<real>)
    requires |xs| > 0 && InUnit(xs)
    ensures 0.0 <= Mean(xs) <= 1.0
  {
    SumBounds(xs);
  }

  function DimNames(dims: Dimensions): (ns: seq<string>)
    ensures |ns| == |dims|
    ensures forall i :: 0 <= i < |dims| ==> ns[i] == dims[i].0
  {
    if dims == [] then [] else DimNames(dims[..|dims| - 1]) + [dims[|dims| - 1].0]
  }

  /** The per-dimension means of a case: one entry per configured dimension with at
      least one tagged, scored assertion. */
  function DimensionScores(dims: Dimensions, rs: seq<AssertionResult>): map<string, real> {
    map d | d in DimNames(dims) && |DimScores(rs, d)| > 0 :: Mean(DimScores(rs, d))
  }

  /** Which dimensions have an entry, and what it is. */
  lemma DimensionScoresEntries(dims: Dimensions, rs: seq<AssertionResult>, d: string)
    ensures d in DimensionScores(dims, rs) <==> d in DimNames(dims) && Tagged(rs, d)
    ensures d in DimensionScores(dims, rs) ==> DimensionScores(dims, rs)[d] == Mean(DimScores(rs, d))
    ensures d in DimensionScores(dims, rs) && ScoresInUnit(rs) ==> 0.0 <= DimensionScores(dims, rs)[d] <= 1.0
  {
    DimScoresNonEmpty(rs, d);
    if d in DimensionScores(dims, rs) && ScoresInUnit(rs) {
      DimScoresInUnit(rs, d);
      MeanInUnit(DimScores(rs, d));
    }
  }

  /** Adding one configured dimension adds (at most) its own entry. */
  lemma DimensionScoresStep(dims: Dimensions, i: nat, rs: seq<AssertionResult>)
    requires i < |dims|
    ensures var d := dims[i].0;
      DimensionScores(dims[..i + 1], rs)
        == if |DimScores(rs, d)| > 0 then DimensionScores(dims[..i], rs)[d := Mean(DimScores(rs, d))]
           else DimensionScores(dims[..i], rs)
  {
    assert dims[..i + 1][..i] == dims[..i];
    assert DimNames(dims[..i + 1]) == DimNames(dims[..i]) + [dims[i].0];
  }

  // ----- weighted overall score -----

  /** Σ dimension score · weight over the configured dimensions that have a score. */
  function WeightedSum(dims: Dimensions, ds: map<string, real>): real {
    if dims == [] then 0.0
    else
      var d, w := dims[|dims| - 1].0, dims[|dims| - 1].1.weight;
      WeightedSum(dims[..|dims| - 1], ds) + (if d in ds then ds[d] * w else 0.0)
  }

  /** Σ weight over the configured dimensions that have a score. */
  function WeightTotal(dims: Dimensions, ds: map<string, real>): real {
    if dims == [] then 0.0
    else
      var d, w := dims[|dims| - 1].0, dims[|dims| - 1].1.weight;
      WeightTotal(dims[..|dims| - 1], ds) + (if d in ds then w else 0.0)
  }

  lemma WeightedStep(dims: Dimensions, i: nat, ds: map<string, real>)
    requires i < |dims|
    ensures var d, w := dims[i].0, dims[i].1.weight;
      && WeightedSum(dims[..i + 1], ds) == WeightedSum(dims[..i], ds) + (if d in ds then ds[d] * w else 0.0)
      && WeightTotal(dims[..i + 1], ds) == WeightTotal(dims[..i], ds) + (if d in ds then w else 0.0)
  {
    assert dims[..i + 1][..i] == dims[..i];
  }

  predicate NonNegativeWeights(dims: Dimensions) {
    forall i :: 0 <= i < |dims| ==> dims[i].1.weight >= 0.0
  }

  predicate ValuesInUnit(ds: map<string, real>) {
    forall d :: d in ds ==> 0.0 <= ds[d] <= 1.0
  }

  /** With non-negative weights and scores in [0, 1]: 0 <= Σ s·w <= Σ w. */
  lemma {:induction false} WeightedSumBounds(dims: Dimensions, ds: map<string, real>)
    requires NonNegativeWeights(dims) && ValuesInUnit(ds)
    ensures 0.0 <= WeightedSum(dims, ds) <= WeightTotal(dims, ds)
  {
    if dims != [] {
      var n := |dims| - 1;
      var init := dims[..n];
      assert forall i :: 0 <= i < |init| ==> init[i] == dims[i];
      WeightedSumBounds(init, ds);
      var d, w := dims[n].0, dims[n].1.weight;
      var step := if d in ds then ds[d] * w else 0.0;
      if d in ds {
        ScaledBound(ds[d], w);
      }
      assert 0.0 <= step <= (if d in ds then w else 0.0);
      assert WeightedSum(dims, ds) == WeightedSum(init, ds) + step;
      assert WeightTotal(dims, ds) == WeightTotal(init, ds) + (if d in ds then w else 0.0);
    }
  }

  lemma ScaledBound(x: real, w: real)
    requires 0.0 <= x <= 1.0 && w >= 0.0
    ensures 0.0 <= x * w <= w
  {
    assert w - x * w == (1.0 - x) * w;
  }

  lemma FractionBounds(p: real, n: real)
    requires 0.0 <= p <= n && n > 0.0
    ensures 0.0 <= p / n <= 1.0
    ensures p / n == 1.0 <==> p == n
  {
    assert p / n * n == p;
  }

  /** The overall score: the weighted mean of the dimension scores, or the pass
      rate when the weights of the dimensions present are not positive. */
  function Overall(dims: Dimensions, ds: map<string, real>, passRate: real): real {
    var total := WeightTotal(dims, ds);
    if total > 0.0 then WeightedSum(dims, ds) / total else passRate
  }

  /** `score_case` as a value. */
  function CaseScoreOf(dims: Dimensions, cr: CaseResult): CaseScore {
    var all := Flattened(cr);
    if |all| == 0 then
      var ok := cr.status == Completed;
      CaseScore(cr.caseId, ok, if ok then 1.0 else 0.0, if ok then 1.0 else 0.0, map[])
    else
      var passRate := PassedCount(all) as real / |all| as real;
      var ds := DimensionScores(dims, all);
      CaseScore(cr.caseId, PassedCount(all) == |all|, passRate, Overall(dims, ds, passRate), ds)
  }

  /** A case with no assertions passes exactly when it completed; its pass rate and
      overall score are then both 1.0, and otherwise both 0.0. */
  lemma EmptyCaseScore(dims: Dimensions, cr: CaseResult)
    requires cr.finalAssertions == [] && forall i :: 0 <= i < |cr.turns| ==> cr.turns[i].assertions == []
    ensures var cs := CaseScoreOf(dims, cr);
      && cs.caseId == cr.caseId
      && (cs.passed <==> cr.status == Completed)
      && cs.passRate == cs.overallScore == (if cr.status == Completed then 1.0 else 0.0)
      && cs.dimensionScores == map[]
  {
    NoTurnAssertions(cr.turns);
  }

  lemma {:induction false} NoTurnAssertions(turns: seq<TurnResult>)
    requires forall i :: 0 <= i < |turns| ==> turns[i].assertions == []
    ensures TurnAssertions(turns) == []
  {
    if turns != [] {
      NoTurnAssertions(turns[..|turns| - 1]);
    }
  }

  /** A case with assertions passes exactly when every one of them passed. */
  lemma CasePassedIffAllPassed(dims: Dimensions, cr: CaseResult)
    requires |Flattened(cr)| > 0
    ensures CaseScoreOf(dims, cr).passed <==> AllPassed(Flattened(cr))
  {
    PassedCountFull(Flattened(cr));
  }

  /** The pass rate is the passed fraction, so it lies in [0, 1] and is 1 exactly
      when the case passed. */
  lemma PassRateBounds(dims: Dimensions, cr: CaseResult)
    ensures var cs := CaseScoreOf(dims, cr);
      && 0.0 <= cs.passRate <= 1.0
      && (|Flattened(cr)| > 0 ==> cs.passRate == PassedCount(Flattened(cr)) as real / |Flattened(cr)| as real)
      && (cs.passRate == 1.0 <==> cs.passed)
  {
    var all := Flattened(cr);
    if |all| > 0 {
      FractionBounds(PassedCount(all) as real, |all| as real);
    }
  }

  /** The overall score follows the weighted rule with its pass-rate fallback. */
  lemma OverallRule(dims: Dimensions, cr: CaseResult)
    requires |Flattened(cr)| > 0
    ensures var cs := CaseScoreOf(dims, cr);
      var total := WeightTotal(dims, cs.dimensionScores);
      && (total > 0.0 ==> cs.overallScore * total == WeightedSum(dims, cs.dimensionScores))
      && (!(total > 0.0) ==> cs.overallScore == cs.passRate)
  {
  }

  /** With non-negative weights and assertion scores in [0, 1] the overall score
      lies in [0, 1]. */
  lemma OverallInUnit(dims: Dimensions, cr: CaseResult)
    requires NonNegativeWeights(dims) && ScoresInUnit(Flattened(cr))
    ensures 0.0 <= CaseScoreOf(dims, cr).overallScore <= 1.0
  {
    PassRateBounds(dims, cr);
    var all := Flattened(cr);
    if |all| > 0 {
      var ds := DimensionScores(dims, all);
      forall d | d in ds ensures 0.0 <= ds[d] <= 1.0 {
        DimensionScoresEntries(dims, all, d);
      }
      WeightedSumBounds(dims, ds);
      var total := WeightTotal(dims, ds);
      if total > 0.0 {
        FractionBounds(WeightedSum(dims, ds), total);
      }
    }
  }

  /** One passing and one failing assertion give pass rate 0.5. */
  lemma HalfPassRate(dims: Dimensions, cr: CaseResult)
    requires |Flattened(cr)| == 2 && Flattened(cr)[0].passed && !Flattened(cr)[1].passed
    ensures CaseScoreOf(dims, cr).passRate == 0.5
    ensures !CaseScoreOf(dims, cr).passed
  {
    var all := Flattened(cr);
    assert all[..1][..0] == [];
    assert PassedCount(all[..1]) == 1;
  }

  /** The weighted-sum loop of `score_case`: accumulates score · weight and weight
      over the configured dimensions that have a score. */
  method WeightedTotals(dims: Dimensions, ds: map<string, real>) returns (overall: real, totalWeight: real)
    ensures overall == WeightedSum(dims, ds) && totalWeight == WeightTotal(dims, ds)
  {
    overall, totalWeight := 0.0, 0.0;
    var i := 0;
    while i < |dims|
      invariant 0 <= i <= |dims|
      invariant overall == WeightedSum(dims[..i], ds)
      invariant totalWeight == WeightTotal(dims[..i], ds)
    {
      var d, w := dims[i].0, dims[i].1.weight;
      WeightedStep(dims, i, ds);
      if d in ds {
        overall := overall + ds[d] * w;
        totalWeight := totalWeight + w;
      }
      i := i + 1;
    }
    assert dims[..i] == dims;
  }

  /** `Scorer.score_case`: accumulates the dimension means and the weighted sum over
      the configured dimensions. */
  method ScoreCase(dims: Dimensions, cr: CaseResult) returns (cs: CaseScore)
    ensures cs == CaseScoreOf(dims, cr)
  {
    var all := FlattenAssertions(cr);
    if |all| == 0 {
      var ok := cr.status == Completed;
      return CaseScore(cr.caseId, ok, if ok then 1.0 else 0.0, if ok then 1.0 else 0.0, map[]);
    }
    var passed := PassedCount(all) == |all|;
    var passRate := PassedCount(all) as real / |all| as real;

    var dimensionScores: map<string, real> := map[];
    var i := 0;
    while i < |dims|
      invariant 0 <= i <= |dims|
      invariant dimensionScores == DimensionScores(dims[..i], all)
    {
      var d := dims[i].0;
      var scores := DimScores(all, d);
      if |scores| > 0 {
        dimensionScores := dimensionScores[d := Mean(scores)];
      }
      DimensionScoresStep(dims, i, all);
      i := i + 1;
    }
    assert dims[..i] == dims;

    var overall, totalWeight := WeightedTotals(dims, dimensionScores);
    var overallScore := if totalWeight > 0.0 then overall / totalWeight else passRate;
    cs := CaseScore(cr.caseId, passed, passRate, overallScore, dimensionScores);
  }

  // ----- suite aggregate -----

  /** The case scores of a suite, one per case result, in order. */
  function CaseScores(dims: Dimensions, crs: seq<CaseResult>): (css: seq<CaseScore>)
    ensures |css| == |crs|
  {
    if crs == [] then [] else CaseScores(dims, crs[..|crs| - 1]) + [CaseScoreOf(dims, crs[|crs| - 1])]
  }

  /** The number of passed cases. */
  function PassedCases(css: seq<CaseScore>): (n: nat)
    ensures n <= |css|
  {
    if css == [] then 0 else PassedCases(css[..|css| - 1]) + (if css[|css| - 1].passed then 1 else 0)
  }

  function OverallSum(css: seq<CaseScore>): real {
    if css == [] then 0.0 else OverallSum(css[..|css| - 1]) + css[|css| - 1].overallScore
  }

  /** The dimensions some case has a score for. */
  function ScoredDims(css: seq<CaseScore>): set<string> {
    if css == [] then {} else ScoredDims(css[..|css| - 1]) + css[|css| - 1].dimensionScores.Keys
  }

  /** The scores the cases give dimension `d`, in case order; non-empty exactly
      when some case scored `d`. */
  function DimColumn(css: seq<CaseScore>, d: string): (xs: seq<real>)
    ensures |xs| > 0 <==> d in ScoredDims(css)
  {
    if css == [] then []
    else
      var last := css[|css| - 1].dimensionScores;
      DimColumn(css[..|css| - 1], d) + (if d in last then [last[d]] else [])
  }

  /** `dim_sums` after the cases `css`: each scored dimension's column. */
  function Columns(css: seq<CaseScore>): map<string, seq<real>> {
    map d | d in ScoredDims(css) :: DimColumn(css, d)
  }

  /** The per-dimension averages over the cases that scored each dimension. */
  function DimensionAverages(css: seq<CaseScore>): map<string, real> {
    map d | d in ScoredDims(css) :: Mean(DimColumn(css, d))
  }

  /** `score_suite` as a value. */
  function SuiteScoreOf(dims: Dimensions, sr: SuiteResult): SuiteScore {
    var css := CaseScores(dims, sr.caseResults);
    if css == [] then SuiteScore(sr.suiteName, 0, 0, 0.0, 0.0, map[], [])
    else
      var total := |css|;
      var passed := PassedCases(css);
      SuiteScore(sr.suiteName, total, passed, passed as real / total as real,
        OverallSum(css) / total as real, DimensionAverages(css), css)
  }

  lemma {:induction false} CaseScoresOrder(dims: Dimensions, crs: seq<CaseResult>, i: nat)
    requires i < |crs|
    ensures CaseScores(dims, crs)[i] == CaseScoreOf(dims, crs[i])
  {
    var init := crs[..|crs| - 1];
    if i < |init| {
      CaseScoresOrder(dims, init, i);
    }
  }

  /** An empty suite scores zero everywhere. */
  lemma EmptySuiteScore(dims: Dimensions, sr: SuiteResult)
    requires sr.caseResults == []
    ensures SuiteScoreOf(dims, sr) == SuiteScore(sr.suiteName, 0, 0, 0.0, 0.0, map[], [])
  {
  }

  /** The suite keeps one score per case, in order, and counts at most all of them
      as passed. */
  lemma SuiteCounts(dims: Dimensions, sr: SuiteResult)
    ensures var ss := SuiteScoreOf(dims, sr);
      && ss.suiteName == sr.suiteName
      && ss.totalCases == |sr.caseResults| == |ss.caseScores|
      && ss.passedCases <= ss.totalCases
      && forall i :: 0 <= i < |sr.caseResults| ==> ss.caseScores[i] == CaseScoreOf(dims, sr.caseResults[i])
  {
    forall i | 0 <= i < |sr.caseResults|
      ensures CaseScores(dims, sr.caseResults)[i] == CaseScoreOf(dims, sr.caseResults[i])
    {
      CaseScoresOrder(dims, sr.caseResults, i);
    }
  }

  lemma {:induction false} PassedCasesFull(css: seq<CaseScore>)
    ensures PassedCases(css) == |css| <==> forall i :: 0 <= i < |css| ==> css[i].passed
  {
    if css != [] {
      var init := css[..|css| - 1];
      PassedCasesFull(init);
      assert forall i :: 0 <= i < |init| ==> init[i] == css[i];
    }
  }

  /** The suite pass rate lies in [0, 1] and is 1 exactly when every case passed. */
  lemma SuitePassRate(dims: Dimensions, sr: SuiteResult)
    requires sr.caseResults != []
    ensures var ss := SuiteScoreOf(dims, sr);
      && 0.0 <= ss.passRate <= 1.0
      && (ss.passRate == 1.0 <==> forall i :: 0 <= i < |sr.caseResults| ==> CaseScoreOf(dims, sr.caseResults[i]).passed)
  {
    var css := CaseScores(dims, sr.caseResults);
    SuiteCounts(dims, sr);
    PassedCasesFull(css);
    FractionBounds(PassedCases(css) as real, |css| as real);
  }

  lemma {:induction false} OverallSumBounds(css: seq<CaseScore>)
    requires forall i :: 0 <= i < |css| ==> 0.0 <= css[i].overallScore <= 1.0
    ensures 0.0 <= OverallSum(css) <= |css| as real
  {
    if css != [] {
      var init := css[..|css| - 1];
      assert forall i :: 0 <= i < |init| ==> init[i] == css[i];
      OverallSumBounds(init);
    }
  }

  /** With non-negative weights and assertion scores in [0, 1], the suite's average
      overall score lies in [0, 1]. */
  lemma SuiteAverageInUnit(dims: Dimensions, sr: SuiteResult)
    requires NonNegativeWeights(dims)
    requires forall i :: 0 <= i < |sr.caseResults| ==> ScoresInUnit(Flattened(sr.caseResults[i]))
    ensures 0.0 <= SuiteScoreOf(dims, sr).avgOverallScore <= 1.0
  {
    var css := CaseScores(dims, sr.caseResults);
    if css != [] {
      SuiteCounts(dims, sr);
      forall i | 0 <= i < |css| ensures 0.0 <= css[i].overallScore <= 1.0 {
        OverallInUnit(dims, sr.caseResults[i]);
      }
      OverallSumBounds(css);
      FractionBounds(OverallSum(css), |css| as real);
    }
  }

  lemma {:induction false} ScoredDimsMember(css: seq<CaseScore>, d: string)
    ensures d in ScoredDims(css) <==> exists i :: 0 <= i < |css| && d in css[i].dimensionScores
  {
    if css != [] {
      var init := css[..|css| - 1];
      ScoredDimsMember(init, d);
      assert forall i :: 0 <= i < |init| ==> init[i] == css[i];
      if d in ScoredDims(css) && d !in css[|css| - 1].dimensionScores {
        var i :| 0 <= i < |init| && d in init[i].dimensionScores;
        assert d in css[i].dimensionScores;
      }
    }
  }

  /** Each case's column entry is the score that case gave. */
  lemma {:induction false} DimColumnInUnit(css: seq<CaseScore>, d: string)
    requires forall i :: 0 <= i < |css| ==> ValuesInUnit(css[i].dimensionScores)
    ensures InUnit(DimColumn(css, d))
  {
    if css != [] {
      var init := css[..|css| - 1];
      assert forall i :: 0 <= i < |init| ==> init[i] == css[i];
      DimColumnInUnit(init, d);
    }
  }

  /** A dimension has a suite average exactly when some case scored it, and only
      configured dimensions do; the average is the mean of the case scores and,
      with assertion scores in [0, 1], lies in [0, 1]. */
  lemma DimensionAveragesEntries(dims: Dimensions, sr: SuiteResult, d: string)
    ensures var ss := SuiteScoreOf(dims, sr);
      && (d in ss.dimensionAverages <==> exists i :: 0 <= i < |ss.caseScores| && d in ss.caseScores[i].dimensionScores)
      && (d in ss.dimensionAverages ==> d in DimNames(dims))
      && (d in ss.dimensionAverages ==> ss.dimensionAverages[d] == Mean(DimColumn(ss.caseScores, d)))
    ensures var ss := SuiteScoreOf(dims, sr);
      ((forall i :: 0 <= i < |sr.caseResults| ==> ScoresInUnit(Flattened(sr.caseResults[i]))) && d in ss.dimensionAverages)
      ==> 0.0 <= ss.dimensionAverages[d] <= 1.0
  {
    var css := CaseScores(dims, sr.caseResults);
    SuiteCounts(dims, sr);
    ScoredDimsMember(css, d);
    if d in ScoredDims(css) {
      var i :| 0 <= i < |css| && d in css[i].dimensionScores;
      DimensionScoresEntries(dims, Flattened(sr.caseResults[i]), d);
      if forall i :: 0 <= i < |sr.caseResults| ==> ScoresInUnit(Flattened(sr.caseResults[i])) {
        forall j | 0 <= j < |css| ensures ValuesInUnit(css[j].dimensionScores) {
          forall e | e in css[j].dimensionScores ensures 0.0 <= css[j].dimensionScores[e] <= 1.0 {
            DimensionScoresEntries(dims, Flattened(sr.caseResults[j]), e);
          }
        }
        DimColumnInUnit(css, d);
        MeanInUnit(DimColumn(css, d));
      }
    }
  }

  /** `dim_sums` part-way through case `cs` (after `prev`): the keys of `cs` in
      `done` have had their score appended. */
  function PartialColumns(prev: seq<CaseScore>, ds: map<string, real>, done: set<string>): map<string, seq<real>>
    requires done <= ds.Keys
  {
    map d | d in ScoredDims(prev) + done :: DimColumn(prev, d) + (if d in done then [ds[d]] else [])
  }

  lemma PartialStart(prev: seq<CaseScore>, ds: map<string, real>)
    ensures PartialColumns(prev, ds, {}) == Columns(prev)
  {
    assert ScoredDims(prev) + {} == ScoredDims(prev);
    forall d | d in ScoredDims(prev) ensures DimColumn(prev, d) + [] == DimColumn(prev, d) {}
  }

  /** Appending key `d` of the current case extends (or creates) its column. */
  lemma PartialStep(prev: seq<CaseScore>, ds: map<string, real>, done: set<string>, d: string)
    requires done <= ds.Keys && d in ds && d !in done
    ensures var p := PartialColumns(prev, ds, done);
      PartialColumns(prev, ds, done + {d}) == p[d := (if d in p then p[d] else []) + [ds[d]]]
  {
    var p := PartialColumns(prev, ds, done);
    var q := PartialColumns(prev, ds, done + {d});
    var r := p[d := (if d in p then p[d] else []) + [ds[d]]];
    assert q.Keys == r.Keys;
    forall e | e in q ensures q[e] == r[e] {
      if e == d && d !in p {
        assert DimColumn(prev, d) == [];
      }
    }
  }

  lemma PartialEnd(css: seq<CaseScore>, i: nat)
    requires i < |css|
    ensures PartialColumns(css[..i], css[i].dimensionScores, css[i].dimensionScores.Keys) == Columns(css[..i + 1])
  {
    assert css[..i + 1][..i] == css[..i];
  }

  /** The inner loop of the `dim_sums` accumulation: appends the scores of one
      case (after the cases `prev`) to their dimensions' lists. */
  method AppendScores(prev: seq<CaseScore>, ds: map<string, real>, dimSums: map<string, seq<real>>)
    returns (out: map<string, seq<real>>)
    requires dimSums == Columns(prev)
    ensures out == PartialColumns(prev, ds, ds.Keys)
  {
    out := dimSums;
    var rest := ds.Keys;
    PartialStart(prev, ds);
    while rest != {}
      invariant rest <= ds.Keys
      invariant out == PartialColumns(prev, ds, ds.Keys - rest)
      decreases |rest|
    {
      var d :| d in rest;
      PartialStep(prev, ds, ds.Keys - rest, d);
      assert ds.Keys - (rest - {d}) == (ds.Keys - rest) + {d};
      var column := if d in out then out[d] else [];
      out := out[d := column + [ds[d]]];
      rest := rest - {d};
    }
  }

  /** The `dim_sums` loop of `score_suite`: appends each case's dimension scores to
      that dimension's list, creating the list on first use. */
  method CollectColumns(css: seq<CaseScore>) returns (dimSums: map<string, seq<real>>)
    ensures dimSums == Columns(css)
  {
    dimSums := map[];
    var i := 0;
    while i < |css|
      invariant 0 <= i <= |css|
      invariant dimSums == Columns(css[..i])
    {
      dimSums := AppendScores(css[..i], css[i].dimensionScores, dimSums);
      PartialEnd(css, i);
      i := i + 1;
    }
    assert css[..i] == css;
  }

  /** `SuiteScorer.score_suite`: scores every case, then aggregates. */
  method ScoreSuite(dims: Dimensions, sr: SuiteResult) returns (ss: SuiteScore)
    ensures ss == SuiteScoreOf(dims, sr)
  {
    var crs := sr.caseResults;
    var caseScores: seq<CaseScore> := [];
    var i := 0;
    while i < |crs|
      invariant 0 <= i <= |crs|
      invariant caseScores == CaseScores(dims, crs[..i])
    {
      var cs := ScoreCase(dims, crs[i]);
      assert crs[..i + 1][..i] == crs[..i];
      caseScores := caseScores + [cs];
      i := i + 1;
    }
    assert crs[..i] == crs;
    if caseScores == [] {
      return SuiteScore(sr.suiteName, 0, 0, 0.0, 0.0, map[], []);
    }
    var total := |caseScores|;
    var passed := PassedCases(caseScores);
    var avgScore := OverallSum(caseScores) / total as real;
    var dimSums := CollectColumns(caseScores);
    var dimAvgs := map d | d in dimSums :: Mean(dimSums[d]);
    assert dimAvgs == DimensionAverages(caseScores);
    ss := SuiteScore(sr.suiteName, total, passed, passed as real / total as real, avgScore, dimAvgs, caseScores);
  }
}
