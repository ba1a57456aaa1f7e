/** The stand-in result that the VIKOR calculator returns (an identical
    private copy also sits unused beside the SAW calculator): a one-step
    trace holding the raw matrix, each alternative scored by the mean of its
    row, and one list, sorted from the largest mean to the smallest, serving
    as both the scores and the ranking. */
module Placeholder {
  import opened Model
  import opened Matrices
  import opened Ranking

  const StepName := "Matriks Keputusan"

  function StepDescription(m: SPKMethod): string {
    "Implementasi untuk metode " + m.DisplayName() + " akan segera tersedia"
  }

  /** Alternative `i` scored by the mean of row `i`, in input order. */
  function RowMeans(alternatives: seq<string>, matrix: Matrix): (s: seq<Scored>)
    requires |matrix| >= |alternatives|
    ensures |s| == |alternatives|
  {
    seq(|alternatives|, i requires 0 <= i < |alternatives| => Scored(alternatives[i], Mean(matrix[i])))
  }

  /** The placeholder result for `spkMethod`. It needs a matrix row for every
      alternative (a missing row throws) and nothing else: no alternatives
      give an empty ranking and a conclusion naming the empty string. */
  function Result(spkMethod: SPKMethod, alternatives: seq<string>, criteria: seq<string>, matrix: Matrix)
    : (r: CalculationResult)
    requires |matrix| >= |alternatives|
    ensures r.spkMethod == spkMethod
    ensures r.steps == [CalculationStep(StepName, StepDescription(spkMethod), matrix, Labels(criteria), alternatives)]
    ensures r.finalScores == r.ranking
    ensures |r.ranking| == |alternatives|
    ensures multiset(r.ranking) == multiset(RowMeans(alternatives, matrix))
    ensures SortedDesc(r.ranking)
    ensures Stable(RowMeans(alternatives, matrix), r.ranking)
    ensures r.conclusion == Tentative(spkMethod, if |alternatives| == 0 then "" else r.ranking[0].name)
  {
    var steps := [CalculationStep(StepName, StepDescription(spkMethod), matrix, Labels(criteria), alternatives)];
    var scores := SortDesc(RowMeans(alternatives, matrix));
    var best := if |scores| == 0 then "" else scores[0].name;
    CalculationResult(spkMethod, steps, scores, scores, Tentative(spkMethod, best))
  }

  /** Every ranked entry is some alternative paired with the mean of its own
      row, which lies between the row's smallest and largest entries. */
  lemma RankedEntriesAreRowMeans(
    spkMethod: SPKMethod, alternatives: seq<string>, criteria: seq<string>, matrix: Matrix, x: Scored)
    requires |matrix| >= |alternatives|
    requires x in Result(spkMethod, alternatives, criteria, matrix).ranking
    ensures exists i :: 0 <= i < |alternatives| && x == Scored(alternatives[i], Mean(matrix[i]))
    ensures forall i :: 0 <= i < |alternatives| && x == Scored(alternatives[i], Mean(matrix[i])) && |matrix[i]| > 0 ==>
      Min(matrix[i]) <= x.score <= Max(matrix[i])
  {
    var s := RowMeans(alternatives, matrix);
    assert x in multiset(Result(spkMethod, alternatives, criteria, matrix).ranking);
    assert x in s;
    forall i | 0 <= i < |alternatives| && |matrix[i]| > 0
      ensures Min(matrix[i]) <= Mean(matrix[i]) <= Max(matrix[i])
    {
      MeanBetweenMinAndMax(matrix[i]);
    }
  }

  /** The conclusion names the earliest alternative with the largest row
      mean. */
  lemma ConclusionNamesBest(spkMethod: SPKMethod, alternatives: seq<string>, criteria: seq<string>, matrix: Matrix)
    requires |matrix| >= |alternatives| > 0
    ensures var b := FirstBest(RowMeans(alternatives, matrix));
            Result(spkMethod, alternatives, criteria, matrix).conclusion == Tentative(spkMethod, alternatives[b])
  {
    TopIsFirstBest(RowMeans(alternatives, matrix));
  }
}
