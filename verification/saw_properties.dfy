/** What the SAW pipeline guarantees: the range of normalised values per
    orientation, the range of the scores, invariance of the ranking under
    scaling of the weights, which alternative the conclusion names, and a
    worked case. */
module SawProperties {
  import opened Model
  import opened Matrices
  import opened Ranking
  import opened Saw

  /** The preconditions under which column `j` can be normalised. */
  predicate HasColumn(m: Matrix, criteriaTypes: seq<CriteriaType>, j: nat) {
    |m| > 0 && Rectangular(m) && Width(m) <= |criteriaTypes| && j < Width(m)
  }

  lemma Ratio(x: real, y: real)
    requires 0.0 <= x <= y && y > 0.0
    ensures 0.0 <= x / y <= 1.0
    ensures x / y == 1.0 <==> x == y
    ensures x > 0.0 ==> x / y > 0.0
  {
    var q := x / y;
    assert x == q * y;
    assert (1.0 - q) * y == y - x;
    if x == y {
      assert (q - 1.0) * y == 0.0;
    }
  }

  /** A BENEFIT column of non-negative entries normalises into [0, 1], an
      entry becomes exactly 1 when and only when it is the column maximum
      and that maximum is not 0, and a column whose maximum is 0 normalises
      entirely to 0. */
  lemma BenefitColumn(m: Matrix, criteriaTypes: seq<CriteriaType>, j: nat)
    requires HasColumn(m, criteriaTypes, j) && criteriaTypes[j] == BENEFIT
    requires forall i :: 0 <= i < |m| ==> m[i][j] >= 0.0
    ensures forall i :: 0 <= i < |m| ==> 0.0 <= Normalize(m, criteriaTypes)[i][j] <= 1.0
    ensures forall i :: 0 <= i < |m| ==>
      (Normalize(m, criteriaTypes)[i][j] == 1.0 <==> m[i][j] == Max(Column(m, j)) && m[i][j] != 0.0)
    ensures Max(Column(m, j)) == 0.0 ==> forall i :: 0 <= i < |m| ==> Normalize(m, criteriaTypes)[i][j] == 0.0
  {
    var n := Normalize(m, criteriaTypes);
    var mx := Max(Column(m, j));
    forall i | 0 <= i < |m|
      ensures 0.0 <= n[i][j] <= 1.0
      ensures n[i][j] == 1.0 <==> m[i][j] == mx && m[i][j] != 0.0
    {
      assert m[i][j] in Column(m, j);
      if mx != 0.0 {
        Ratio(m[i][j], mx);
      }
    }
  }

  /** A COST column of positive entries normalises into (0, 1], and an entry
      becomes exactly 1 when and only when it is the column minimum. */
  lemma CostColumn(m: Matrix, criteriaTypes: seq<CriteriaType>, j: nat)
    requires HasColumn(m, criteriaTypes, j) && criteriaTypes[j] == COST
    requires forall i :: 0 <= i < |m| ==> m[i][j] > 0.0
    ensures forall i :: 0 <= i < |m| ==> 0.0 < Normalize(m, criteriaTypes)[i][j] <= 1.0
    ensures forall i :: 0 <= i < |m| ==>
      (Normalize(m, criteriaTypes)[i][j] == 1.0 <==> m[i][j] == Min(Column(m, j)))
  {
    var n := Normalize(m, criteriaTypes);
    var mn := Min(Column(m, j));
    assert exists i :: 0 <= i < |m| && Column(m, j)[i] == mn;
    forall i | 0 <= i < |m|
      ensures 0.0 < n[i][j] <= 1.0
      ensures n[i][j] == 1.0 <==> m[i][j] == mn
    {
      assert m[i][j] in Column(m, j);
      Ratio(mn, m[i][j]);
    }
  }

  /** A COST column of non-negative entries that contains a 0 normalises
      entirely to 0: its minimum is 0, and the zero entries are guarded. */
  lemma CostColumnWithZero(m: Matrix, criteriaTypes: seq<CriteriaType>, j: nat, z: nat)
    requires HasColumn(m, criteriaTypes, j) && criteriaTypes[j] == COST
    requires forall i :: 0 <= i < |m| ==> m[i][j] >= 0.0
    requires z < |m| && m[z][j] == 0.0
    ensures forall i :: 0 <= i < |m| ==> Normalize(m, criteriaTypes)[i][j] == 0.0
  {
    assert m[z][j] in Column(m, j);
    assert Min(Column(m, j)) == 0.0;
  }

  /** With non-negative entries every normalised value, of either
      orientation, lies in [0, 1]. */
  lemma NormalizedInUnit(m: Matrix, criteriaTypes: seq<CriteriaType>, i: nat, j: nat)
    requires HasColumn(m, criteriaTypes, j) && i < |m|
    requires forall i', j' :: 0 <= i' < |m| && 0 <= j' < |m[i']| ==> m[i'][j'] >= 0.0
    ensures 0.0 <= Normalize(m, criteriaTypes)[i][j] <= 1.0
  {
    assert m[i][j] in Column(m, j);
    var mx, mn := Max(Column(m, j)), Min(Column(m, j));
    assert mn in Column(m, j);
    match criteriaTypes[j]
    case BENEFIT =>
      if mx != 0.0 {
        Ratio(m[i][j], mx);
      }
    case COST =>
      if m[i][j] != 0.0 {
        Ratio(mn, m[i][j]);
      }
  }

  /** With non-negative entries and weights, every score lies between 0 and
      the sum of the weights of the matrix's criteria (so in [0, 1] when
      those weights sum to 1). */
  lemma ScoreWithinWeightTotal(
    alternatives: seq<string>, criteria: seq<string>, matrix: Matrix,
    weights: seq<real>, criteriaTypes: seq<CriteriaType>)
    requires Computable(alternatives, criteria, matrix, weights, criteriaTypes)
    requires forall i, j :: 0 <= i < |matrix| && 0 <= j < |matrix[i]| ==> matrix[i][j] >= 0.0
    requires forall j :: 0 <= j < |weights| ==> weights[j] >= 0.0
    ensures forall i :: 0 <= i < |matrix| ==>
      0.0 <= Calculate(alternatives, criteria, matrix, weights, criteriaTypes).finalScores[i].score
          <= Sum(weights[..Width(matrix)])
  {
    var r := Calculate(alternatives, criteria, matrix, weights, criteriaTypes);
    var n := Normalize(matrix, criteriaTypes);
    forall i | 0 <= i < |matrix|
      ensures 0.0 <= r.finalScores[i].score <= Sum(weights[..Width(matrix)])
    {
      forall j | 0 <= j < |n[i]| ensures 0.0 <= n[i][j] <= 1.0 {
        NormalizedInUnit(matrix, criteriaTypes, i, j);
      }
      WeightedSumBounds(n[i], weights);
      assert r.steps[2].matrix[i] == Products(n[i], weights);
    }
  }

  /** Every weight multiplied by `k`. */
  function ScaleWeights(weights: seq<real>, k: real): seq<real> {
    ScaleAll(weights, k)
  }

  lemma ProductsScale(a: seq<real>, w: seq<real>, k: real)
    requires |a| <= |w|
    ensures Products(a, ScaleAll(w, k)) == ScaleAll(Products(a, w), k)
  {
    var p, q := Products(a, ScaleAll(w, k)), ScaleAll(Products(a, w), k);
    assert |p| == |q|;
    forall j | 0 <= j < |p| ensures p[j] == q[j] {
      assert p[j] == a[j] * (w[j] * k);
    }
  }

  /** Multiplication by `k`, as a transformation of scores. */
  function Times(k: real): real -> real {
    x => x * k
  }

  /** Scaling the weights by k scales a row's weighted sum by k. */
  lemma RowSumScale(row: seq<real>, weights: seq<real>, k: real)
    requires |row| <= |weights|
    ensures Sum(Products(row, ScaleWeights(weights, k))) == Times(k)(Sum(Products(row, weights)))
  {
    ProductsScale(row, weights, k);
    SumScale(Products(row, weights), k);
  }

  /** Multiplying every weight by k > 0 multiplies every score by k. */
  lemma ScoresScale(
    alternatives: seq<string>, weights: seq<real>, n: Matrix, k: real)
    requires |n| <= |alternatives|
    requires forall i :: 0 <= i < |n| ==> |n[i]| <= |weights|
    ensures FinalScores(ApplyWeights(n, ScaleWeights(weights, k)), alternatives)
         == MapScores(FinalScores(ApplyWeights(n, weights), alternatives), Times(k))
  {
    var w' := ScaleWeights(weights, k);
    var s := FinalScores(ApplyWeights(n, weights), alternatives);
    var s' := FinalScores(ApplyWeights(n, w'), alternatives);
    forall i | 0 <= i < |n|
      ensures MapScores(s, Times(k))[i] == s'[i]
    {
      assert ApplyWeights(n, weights)[i] == Products(n[i], weights);
      assert ApplyWeights(n, w')[i] == Products(n[i], w');
      RowSumScale(n[i], weights, k);
      MapScoresAt(s, Times(k), i);
    }
  }

  lemma TimesIncreasing(k: real)
    requires k > 0.0
    ensures StrictlyIncreasing(Times(k))
  {
    forall x: real, y: real | x < y ensures Times(k)(x) < Times(k)(y) {
      assert (y - x) * k > 0.0;
    }
  }

  /** Multiplying every weight by k > 0 multiplies every score, in the
      score list and in the ranking, by k, and leaves the ranking's order of
      names unchanged. */
  lemma WeightScaling(
    alternatives: seq<string>, criteria: seq<string>, matrix: Matrix,
    weights: seq<real>, criteriaTypes: seq<CriteriaType>, k: real)
    requires Computable(alternatives, criteria, matrix, weights, criteriaTypes)
    requires k > 0.0
    ensures Computable(alternatives, criteria, matrix, ScaleWeights(weights, k), criteriaTypes)
    ensures var r := Calculate(alternatives, criteria, matrix, weights, criteriaTypes);
            var r' := Calculate(alternatives, criteria, matrix, ScaleWeights(weights, k), criteriaTypes);
            && r'.finalScores == MapScores(r.finalScores, Times(k))
            && r'.ranking == MapScores(r.ranking, Times(k))
            && Names(r'.ranking) == Names(r.ranking)
  {
    var w' := ScaleWeights(weights, k);
    assert |w'| == |weights|;
    var n := Normalize(matrix, criteriaTypes);
    var s := FinalScores(ApplyWeights(n, weights), alternatives);
    CalculateParts(alternatives, criteria, matrix, weights, criteriaTypes);
    CalculateParts(alternatives, criteria, matrix, w', criteriaTypes);
    ScoresScale(alternatives, weights, n, k);
    TimesIncreasing(k);
    SortDescMapScores(s, Times(k));
  }

  /** The conclusion names the earliest alternative among those with the
      largest score, together with that score. */
  lemma ConclusionNamesBest(
    alternatives: seq<string>, criteria: seq<string>, matrix: Matrix,
    weights: seq<real>, criteriaTypes: seq<CriteriaType>)
    requires Computable(alternatives, criteria, matrix, weights, criteriaTypes)
    ensures var r := Calculate(alternatives, criteria, matrix, weights, criteriaTypes);
            var b := FirstBest(r.finalScores);
            && r.conclusion == BestWithScore(alternatives[b], r.finalScores[b].score)
            && (forall i :: 0 <= i < |matrix| ==> r.finalScores[i].score <= r.finalScores[b].score)
            && (forall i :: 0 <= i < b ==> r.finalScores[i].score < r.finalScores[b].score)
  {
    var r := Calculate(alternatives, criteria, matrix, weights, criteriaTypes);
    SortDescIsTheStableSort(r.finalScores, r.ranking);
    TopIsFirstBest(r.finalScores);
  }

  /** A single alternative scored on a single criterion is ranked first. */
  lemma SingleAlternativeRanksFirst(
    alternatives: seq<string>, criteria: seq<string>, matrix: Matrix,
    weights: seq<real>, criteriaTypes: seq<CriteriaType>)
    requires Computable(alternatives, criteria, matrix, weights, criteriaTypes)
    requires |matrix| == 1 && |matrix[0]| == 1
    ensures var r := Calculate(alternatives, criteria, matrix, weights, criteriaTypes);
            Names(r.ranking) == [alternatives[0]] && r.conclusion.name == alternatives[0]
  {
    var r := Calculate(alternatives, criteria, matrix, weights, criteriaTypes);
    assert |r.ranking| == 1;
    assert r.ranking[0] in multiset(r.finalScores);
  }

  const ExampleMatrix: Matrix := [[2.0, 8.0], [4.0, 4.0]]
  const ExampleTypes := [COST, BENEFIT]
  const ExampleWeights := [0.5, 0.5]

  lemma ExampleNormalized()
    ensures Normalize(ExampleMatrix, ExampleTypes) == [[1.0, 1.0], [0.5, 0.5]]
  {
    var m := ExampleMatrix;
    assert Column(m, 0) == [2.0, 4.0];
    assert Column(m, 1) == [8.0, 4.0];
    assert Min(Column(m, 0)) == 2.0;
    assert Max(Column(m, 1)) == 8.0;
    var n := Normalize(m, ExampleTypes);
    assert n[0][0] == 1.0 && n[0][1] == 1.0 && n[1][0] == 0.5 && n[1][1] == 0.5;
    assert n[0] == [1.0, 1.0] && n[1] == [0.5, 0.5];
  }

  lemma ExampleWeighted()
    ensures ApplyWeights([[1.0, 1.0], [0.5, 0.5]], ExampleWeights) == [[0.5, 0.5], [0.25, 0.25]]
  {
    var w := ApplyWeights([[1.0, 1.0], [0.5, 0.5]], ExampleWeights);
    assert w[0][0] == 0.5 && w[0][1] == 0.5 && w[1][0] == 0.25 && w[1][1] == 0.25;
    assert w[0] == [0.5, 0.5] && w[1] == [0.25, 0.25];
  }

  lemma ExampleScores()
    ensures FinalScores([[0.5, 0.5], [0.25, 0.25]], ["A", "B"]) == [Scored("A", 1.0), Scored("B", 0.5)]
    ensures SortDesc([Scored("A", 1.0), Scored("B", 0.5)]) == [Scored("A", 1.0), Scored("B", 0.5)]
  {
    var w: Matrix := [[0.5, 0.5], [0.25, 0.25]];
    assert Sum(w[0]) == 1.0;
    assert Sum(w[1]) == 0.5;
    var s := [Scored("A", 1.0), Scored("B", 0.5)];
    assert s[1..] == [Scored("B", 0.5)];
    assert SortDesc(s[1..]) == [Scored("B", 0.5)];
  }

  /** Two alternatives A and B, a COST and a BENEFIT criterion, equal
      weights: A's cost is the lower and its quality the higher, so it wins
      with score 1 against 0.5. */
  lemma WorkedExample()
    ensures var r := Calculate(["A", "B"], ["Cost", "Quality"], ExampleMatrix, ExampleWeights, ExampleTypes);
            && r.steps[1].matrix == [[1.0, 1.0], [0.5, 0.5]]
            && r.steps[2].matrix == [[0.5, 0.5], [0.25, 0.25]]
            && r.finalScores == [Scored("A", 1.0), Scored("B", 0.5)]
            && r.ranking == [Scored("A", 1.0), Scored("B", 0.5)]
            && r.conclusion == BestWithScore("A", 1.0)
  {
    CalculateParts(["A", "B"], ["Cost", "Quality"], ExampleMatrix, ExampleWeights, ExampleTypes);
    ExampleNormalized();
    ExampleWeighted();
    ExampleScores();
  }
}
