/** The VIKOR calculator as implemented: it delegates to the placeholder
    result and ignores the weights and criterion types. */
module Vikor {
  import opened Model
  import opened Matrices
  import Placeholder

  function Calculate(
    alternatives: seq<string>, criteria: seq<string>, matrix: Matrix,
    weights: seq<real>, criteriaTypes: seq<CriteriaType>): (r: CalculationResult)
    requires |matrix| >= |alternatives|
    ensures r.spkMethod == VIKOR
    ensures r == Placeholder.Result(VIKOR, alternatives, criteria, matrix)
  {
    Placeholder.Result(VIKOR, alternatives, criteria, matrix)
  }

  /** The calculator as the session runs it: a result, or `None` for the
      exception a missing matrix row raises. */
  function Run(
    alternatives: seq<string>, criteria: seq<string>, matrix: Matrix,
    weights: seq<real>, criteriaTypes: seq<CriteriaType>): (r: Option<CalculationResult>)
    ensures r.Some? <==> |matrix| >= |alternatives|
    ensures r.Some? ==> r.value.spkMethod == VIKOR && |r.value.ranking| == |alternatives|
    ensures r.Some? ==> r.value == Calculate(alternatives, criteria, matrix, weights, criteriaTypes)
  {
    if |matrix| >= |alternatives| then
      Some(Calculate(alternatives, criteria, matrix, weights, criteriaTypes))
    else None
  }

  /** Weights and criterion types have no influence on the result. */
  lemma IgnoresWeightsAndTypes(
    alternatives: seq<string>, criteria: seq<string>, matrix: Matrix,
    weights: seq<real>, criteriaTypes: seq<CriteriaType>,
    weights': seq<real>, criteriaTypes': seq<CriteriaType>)
    requires |matrix| >= |alternatives|
    ensures Calculate(alternatives, criteria, matrix, weights, criteriaTypes)
         == Calculate(alternatives, criteria, matrix, weights', criteriaTypes')
  {
  }

  /** A single alternative is ranked first. */
  lemma SingleAlternativeRanksFirst(
    alternatives: seq<string>, criteria: seq<string>, matrix: Matrix,
    weights: seq<real>, criteriaTypes: seq<CriteriaType>)
    requires |alternatives| == 1 && |matrix| >= 1
    ensures var r := Calculate(alternatives, criteria, matrix, weights, criteriaTypes);
            Names(r.ranking) == alternatives && r.conclusion.name == alternatives[0]
  {
    var r := Calculate(alternatives, criteria, matrix, weights, criteriaTypes);
    assert r.ranking[0] in multiset(Placeholder.RowMeans(alternatives, matrix));
  }
}
