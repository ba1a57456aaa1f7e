/** The Simple Additive Weighting calculator: record the raw matrix,
    normalise each column by its orientation, multiply by the weights, sum
    each row, and rank the sums from largest to smallest. */
module Saw {
  import opened Model
  import opened Matrices
  import opened Ranking

  const RawStepName := "Matriks Keputusan Awal"
  const RawStepDescription := "Matriks awal yang berisi nilai setiap alternatif terhadap kriteria"
  const NormalizedStepName := "Matriks Normalisasi"
  const NormalizedStepDescription := "Matriks yang telah dinormalisasi menggunakan rumus SAW"
  const WeightedStepName := "Matriks Terbobot"
  const WeightedStepDescription := "Matriks normalisasi dikalikan dengan bobot masing-masing kriteria"
  const ScoreStepName := "Nilai Preferensi"
  const ScoreStepDescription := "Hasil penjumlahan nilai terbobot untuk setiap alternatif"

  /** The inputs on which the calculator finishes; on any other input one of
      its list look-ups (a short row, a missing criterion type or weight, a
      missing alternative name) or taking the first of an empty ranking
      throws. */
  predicate Computable(
    alternatives: seq<string>, criteria: seq<string>, matrix: Matrix,
    weights: seq<real>, criteriaTypes: seq<CriteriaType>)
  {
    && |matrix| > 0
    && Rectangular(matrix)
    && Width(matrix) <= |criteriaTypes|
    && Width(matrix) <= |weights|
    && |criteria| <= |weights|
    && |matrix| <= |alternatives|
  }

  /** The normalised value of entry (i, j) when column j has orientation `t`:
      a BENEFIT entry divided by the column maximum (0 when that maximum is
      0), or the column minimum divided by a COST entry (0 when the entry is
      0). The calculator's fallback for an empty column cannot be reached,
      since a column of a matrix with rows is never empty. */
  function NormalizeCell(m: Matrix, t: CriteriaType, i: nat, j: nat): (r: real)
    requires Rectangular(m) && i < |m| && j < |m[0]|
    ensures t == BENEFIT && Max(Column(m, j)) == 0.0 ==> r == 0.0
    ensures t == BENEFIT && Max(Column(m, j)) != 0.0 ==> r * Max(Column(m, j)) == m[i][j]
    ensures t == COST && m[i][j] == 0.0 ==> r == 0.0
    ensures t == COST && m[i][j] != 0.0 ==> r * m[i][j] == Min(Column(m, j))
  {
    match t
    case BENEFIT =>
      var mx := Max(Column(m, j));
      if mx != 0.0 then m[i][j] / mx else 0.0
    case COST =>
      var mn := Min(Column(m, j));
      if m[i][j] != 0.0 then mn / m[i][j] else 0.0
  }

  /** Every entry normalised by the orientation of its column. */
  function Normalize(m: Matrix, criteriaTypes: seq<CriteriaType>): (n: Matrix)
    requires Rectangular(m) && Width(m) <= |criteriaTypes|
    ensures SameShape(n, m)
  {
    seq(|m|, i requires 0 <= i < |m| =>
      seq(|m[i]|, j requires 0 <= j < |m[i]| => NormalizeCell(m, criteriaTypes[j], i, j)))
  }

  /** Entry (i, j) of `w` is entry (i, j) of `n` times the weight of column
      j. */
  predicate WeightedBy(w: Matrix, n: Matrix, weights: seq<real>) {
    forall i, j :: 0 <= i < |w| && 0 <= j < |w[i]| ==>
      i < |n| && j < |n[i]| && j < |weights| && w[i][j] == n[i][j] * weights[j]
  }

  /** Every row multiplied entry-wise by the weights. */
  function ApplyWeights(m: Matrix, weights: seq<real>): (w: Matrix)
    requires forall i :: 0 <= i < |m| ==> |m[i]| <= |weights|
    ensures SameShape(w, m)
    ensures WeightedBy(w, m, weights)
  {
    seq(|m|, i requires 0 <= i < |m| => Products(m[i], weights))
  }

  /** Each row's sum, labelled by the alternative of the same position. */
  function FinalScores(weighted: Matrix, alternatives: seq<string>): (s: seq<Scored>)
    requires |weighted| <= |alternatives|
    ensures |s| == |weighted|
  {
    seq(|weighted|, i requires 0 <= i < |weighted| => Scored(alternatives[i], Sum(weighted[i])))
  }

  /** The scores as a one-column matrix. */
  function ScoreColumn(scores: seq<Scored>): Matrix {
    seq(|scores|, i requires 0 <= i < |scores| => [scores[i].score])
  }

  /** Column headers of the weighted step: each criterion with its weight. */
  function WeightHeaders(criteria: seq<string>, weights: seq<real>): seq<Header>
    requires |criteria| <= |weights|
  {
    seq(|criteria|, i requires 0 <= i < |criteria| => Weighted(criteria[i], weights[i]))
  }

  /** The stage names of a trace, in order. */
  function StepNames(steps: seq<CalculationStep>): seq<string> {
    seq(|steps|, i requires 0 <= i < |steps| => steps[i].stepName)
  }

  /** The whole SAW calculation on an input it can finish. */
  function Calculate(
    alternatives: seq<string>, criteria: seq<string>, matrix: Matrix,
    weights: seq<real>, criteriaTypes: seq<CriteriaType>): (r: CalculationResult)
    requires Computable(alternatives, criteria, matrix, weights, criteriaTypes)
    ensures r.spkMethod == SAW
    ensures StepNames(r.steps) == [RawStepName, NormalizedStepName, WeightedStepName, ScoreStepName]
    ensures r.steps[0] == CalculationStep(RawStepName, RawStepDescription, matrix, Labels(criteria), alternatives)
    ensures forall k :: 0 <= k < |r.steps| ==> r.steps[k].rowHeaders == alternatives
    ensures r.steps[1].columnHeaders == Labels(criteria)
    ensures r.steps[2].columnHeaders == WeightHeaders(criteria, weights)
    ensures r.steps[3].columnHeaders == [Label(ScoreStepName)]
    ensures SameShape(r.steps[1].matrix, matrix) && SameShape(r.steps[2].matrix, matrix)
    ensures WeightedBy(r.steps[2].matrix, r.steps[1].matrix, weights)
    ensures |r.finalScores| == |matrix|
    ensures forall i :: 0 <= i < |matrix| ==>
      r.finalScores[i] == Scored(alternatives[i], Sum(r.steps[2].matrix[i]))
    ensures r.steps[3].matrix == ScoreColumn(r.finalScores)
    ensures SortedDesc(r.ranking)
    ensures multiset(r.ranking) == multiset(r.finalScores)
    ensures Stable(r.finalScores, r.ranking)
    ensures r.conclusion == BestWithScore(r.ranking[0].name, r.ranking[0].score)
  {
    var normalized := Normalize(matrix, criteriaTypes);
    var weighted := ApplyWeights(normalized, weights);
    var scores := FinalScores(weighted, alternatives);
    var ranking := SortDesc(scores);
    var steps := [
      CalculationStep(RawStepName, RawStepDescription, matrix, Labels(criteria), alternatives),
      CalculationStep(NormalizedStepName, NormalizedStepDescription, normalized, Labels(criteria), alternatives),
      CalculationStep(WeightedStepName, WeightedStepDescription, weighted, WeightHeaders(criteria, weights), alternatives),
      CalculationStep(ScoreStepName, ScoreStepDescription, ScoreColumn(scores), [Label(ScoreStepName)], alternatives)
    ];
    var r := CalculationResult(SAW, steps, scores, ranking, BestWithScore(ranking[0].name, ranking[0].score));
    assert r.steps[1].matrix == normalized && r.steps[2].matrix == weighted;
    r
  }

  /** The calculator as the session runs it: a result, or `None` for the
      exception that the session's catch swallows. */
  function Run(
    alternatives: seq<string>, criteria: seq<string>, matrix: Matrix,
    weights: seq<real>, criteriaTypes: seq<CriteriaType>): (r: Option<CalculationResult>)
    ensures r.Some? <==> Computable(alternatives, criteria, matrix, weights, criteriaTypes)
    ensures r.Some? ==> r.value.spkMethod == SAW && |r.value.ranking| == |matrix| > 0
    ensures r.Some? ==> r.value == Calculate(alternatives, criteria, matrix, weights, criteriaTypes)
  {
    if Computable(alternatives, criteria, matrix, weights, criteriaTypes) then
      Some(Calculate(alternatives, criteria, matrix, weights, criteriaTypes))
    else None
  }

  /** The result's scores and ranking, as the pipeline of stages computes
      them. */
  lemma CalculateParts(
    alternatives: seq<string>, criteria: seq<string>, matrix: Matrix,
    weights: seq<real>, criteriaTypes: seq<CriteriaType>)
    requires Computable(alternatives, criteria, matrix, weights, criteriaTypes)
    ensures var r := Calculate(alternatives, criteria, matrix, weights, criteriaTypes);
            && r.steps[1].matrix == Normalize(matrix, criteriaTypes)
            && r.steps[2].matrix == ApplyWeights(Normalize(matrix, criteriaTypes), weights)
            && r.finalScores == FinalScores(ApplyWeights(Normalize(matrix, criteriaTypes), weights), alternatives)
            && r.ranking == SortDesc(r.finalScores)
  {
  }
}
