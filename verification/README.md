# CountIt decision engine and project session, in Dafny

CountIt is an Android app that ranks alternatives against weighted
criteria with a chosen decision-support method (SPK, *sistem pendukung
keputusan*). This project models its three pieces of logic:

- **the SAW calculator** (Simple Additive Weighting). It records the raw
  decision matrix, normalises each column, multiplies by the weights, sums
  each row, stable-sorts the sums from high to low, and names the best
  alternative. A BENEFIT column is divided by its maximum, or becomes 0 when
  that maximum is 0. A COST column becomes the column minimum divided by the
  entry, or 0 when the entry is 0.
- **the VIKOR calculator** as the code implements it: a placeholder shared
  with the other unfinished methods. It scores each alternative by the mean
  of its matrix row, stable-sorts those means from high to low, and uses
  that one list as both the scores and the ranking. Its trace has a single
  step. The same placeholder also sits, unused and file-private, at the end
  of SAWCalculator.kt (lines 123-153).
- **the project session** (`MainViewModel`): an immutable project record,
  the copy-update mutators the screens call, the validity guard, and the
  effect of a calculation on the stored result.

Kotlin's `Double` is modelled as Dafny's exact `real` and `List` as
`seq`. A nullable value becomes `Option`. A calculator that throws is
modelled two ways. `Calculate` has a `requires` that excludes the
throwing inputs. `Run` is total and returns `None` on those inputs,
which is where the session's catch block swallows the exception. The
stable `sortedByDescending` is an insertion sort (`Ranking.SortDesc`).
Its contract is sorted + permutation + equal-score entries in input order,
and a lemma shows that this contract determines the output.

The published VIKOR method ranks by a compromise index, in ascending order.
The code does not implement it. It returns the row-mean placeholder, sorted
in descending order, and the model follows the code.

Modules: `Model` (data), `Matrices` (lists and matrices of reals),
`Ranking` (the stable descending sort), `Saw` and `SawProperties`,
`Placeholder` and `Vikor`, `CalculatorFactory`, `Session`.

## Model

| member | source | states |
|---|---|---|
| Saw.Calculate | app/src/main/java/com/devianest/countit/calculator/SAWCalculator.kt:7-78 | The trace has four steps, in order: raw, normalised, weighted, scores. The raw step is the input unchanged, with the criteria and alternatives as headers. The weighted headers pair each criterion with its weight. Normalised and weighted matrices have the input's shape. Each weighted entry is the normalised entry times its column's weight. Score i is alternative i with the sum of weighted row i, in input order, and the score step is a one-column matrix of them. The ranking is a non-increasing permutation of the scores with ties in input order. The method is SAW and the conclusion names the first ranked alternative and its score |
| Saw.Run | app/src/main/java/com/devianest/countit/calculator/SAWCalculator.kt:7-115 | The calculator finishes exactly when the matrix has rows, is rectangular, has a criterion type and a weight per column, a weight per criterion name and a name per row; otherwise a look-up throws. A finished run returns the full SAW result of `Saw.Calculate` and ranks every row |
| Saw.NormalizeCell | app/src/main/java/com/devianest/countit/calculator/SAWCalculator.kt:87-96 | A BENEFIT entry times the column maximum gives back the entry, and is 0 when that maximum is 0. A COST entry times the original entry gives the column minimum, and is 0 when the entry is 0 |
| Saw.Normalize | app/src/main/java/com/devianest/countit/calculator/SAWCalculator.kt:80-103 | The normalised matrix has the input's shape |
| Saw.ApplyWeights | app/src/main/java/com/devianest/countit/calculator/SAWCalculator.kt:105-109 | The weighted matrix has the input's shape, and entry (i, j) is the input entry times weight j |
| Saw.FinalScores | app/src/main/java/com/devianest/countit/calculator/SAWCalculator.kt:111-115 | One score per weighted row |
| SawProperties.BenefitColumn | app/src/main/java/com/devianest/countit/calculator/SAWCalculator.kt:88-91 | A BENEFIT column of non-negative entries normalises into [0, 1]. An entry becomes 1 exactly when it is the column maximum and not 0. A column whose maximum is 0 normalises entirely to 0 |
| SawProperties.CostColumn | app/src/main/java/com/devianest/countit/calculator/SAWCalculator.kt:92-95 | A COST column of positive entries normalises into (0, 1]. An entry becomes 1 exactly when it is the column minimum |
| SawProperties.CostColumnWithZero | app/src/main/java/com/devianest/countit/calculator/SAWCalculator.kt:92-95 | A non-negative COST column containing a 0 normalises entirely to 0 |
| SawProperties.NormalizedInUnit | app/src/main/java/com/devianest/countit/calculator/SAWCalculator.kt:83-99 | With non-negative entries every normalised value lies in [0, 1] |
| SawProperties.ScoreWithinWeightTotal | app/src/main/java/com/devianest/countit/calculator/SAWCalculator.kt:105-115 | With non-negative entries and weights, every score lies between 0 and the sum of the weights in use |
| SawProperties.WeightScaling | app/src/main/java/com/devianest/countit/calculator/SAWCalculator.kt:105-115 | Multiplying every weight by k > 0 multiplies every score by k, in the scores and in the ranking. The order of names in the ranking does not change |
| SawProperties.ConclusionNamesBest | app/src/main/java/com/devianest/countit/calculator/SAWCalculator.kt:65-72 | The conclusion names the earliest alternative with the largest score, together with that score |
| SawProperties.SingleAlternativeRanksFirst | app/src/main/java/com/devianest/countit/calculator/SAWCalculator.kt:65-72 | One alternative on one criterion is ranked first and named in the conclusion |
| SawProperties.ExampleNormalized | app/src/main/java/com/devianest/countit/calculator/SAWCalculator.kt:80-103 | Matrix [[2,8],[4,4]] with types [COST, BENEFIT] normalises to [[1,1],[0.5,0.5]] |
| SawProperties.ExampleWeighted | app/src/main/java/com/devianest/countit/calculator/SAWCalculator.kt:105-109 | Those values under weights [0.5, 0.5] become [[0.5,0.5],[0.25,0.25]] |
| SawProperties.ExampleScores | app/src/main/java/com/devianest/countit/calculator/SAWCalculator.kt:111-115 | Those rows score A = 1 and B = 0.5, ranked A then B |
| SawProperties.WorkedExample | app/src/main/java/com/devianest/countit/calculator/SAWCalculator.kt:7-78 | The whole calculation on that example: scores A = 1 and B = 0.5, ranking A then B, conclusion naming A with 1 |
| Matrices.Max | app/src/main/java/com/devianest/countit/calculator/SAWCalculator.kt:89-90 | A column's maximum is one of its entries and bounds every entry from above |
| Matrices.Min | app/src/main/java/com/devianest/countit/calculator/SAWCalculator.kt:93-94 | A column's minimum is one of its entries and bounds every entry from below |
| Matrices.Mean | app/src/main/java/com/devianest/countit/calculator/VIKORCalculator.kt:35 | The mean of an empty row is 0; otherwise the mean times the row's length is the row's sum |
| Matrices.MeanBetweenMinAndMax | app/src/main/java/com/devianest/countit/calculator/VIKORCalculator.kt:35 | The mean of a non-empty row lies between the row's minimum and maximum |
| Ranking.SortDesc | app/src/main/java/com/devianest/countit/calculator/SAWCalculator.kt:65 | The stable descending sort: the output has the input's length, is non-increasing, is a permutation of the input, and keeps entries of equal score in input order |
| Ranking.SortDescIsTheStableSort | app/src/main/java/com/devianest/countit/calculator/SAWCalculator.kt:65 | Any non-increasing list holding the equal-score groups of the input in input order is the sort's output, so the contract determines it |
| Ranking.TopIsFirstBest | app/src/main/java/com/devianest/countit/calculator/SAWCalculator.kt:69 | The first ranked entry is the earliest input entry with the largest score |
| Ranking.SortDescMapScores | app/src/main/java/com/devianest/countit/calculator/SAWCalculator.kt:105-115 | Applying a strictly increasing map to the scores commutes with the sort |
| Placeholder.Result | app/src/main/java/com/devianest/countit/calculator/VIKORCalculator.kt:17-47 | The method is the one given. The single trace step is the raw matrix with criteria and alternatives as headers. Scores and ranking are the same list: the row means, one per alternative, as a non-increasing permutation with ties in input order. The conclusion names the first entry, or the empty name when there is none |
| Placeholder.RowMeans | app/src/main/java/com/devianest/countit/calculator/VIKORCalculator.kt:34-36 | One score per alternative |
| Placeholder.RankedEntriesAreRowMeans | app/src/main/java/com/devianest/countit/calculator/VIKORCalculator.kt:34-37 | Every ranked entry is an alternative paired with the mean of its own row, which lies between the row's minimum and maximum |
| Placeholder.ConclusionNamesBest | app/src/main/java/com/devianest/countit/calculator/VIKORCalculator.kt:37-45 | The conclusion names the earliest alternative with the largest row mean |
| Vikor.Calculate | app/src/main/java/com/devianest/countit/calculator/VIKORCalculator.kt:5-14 | The method is VIKOR, and the result is the placeholder's for VIKOR on the same alternatives, criteria and matrix |
| Vikor.Run | app/src/main/java/com/devianest/countit/calculator/VIKORCalculator.kt:5-47 | The calculator finishes exactly when the matrix has a row per alternative. A finished run returns the full result of `Vikor.Calculate` and ranks every alternative |
| Vikor.IgnoresWeightsAndTypes | app/src/main/java/com/devianest/countit/calculator/VIKORCalculator.kt:5-13 | The weights and criterion types do not influence the result |
| Vikor.SingleAlternativeRanksFirst | app/src/main/java/com/devianest/countit/calculator/VIKORCalculator.kt:34-45 | A single alternative is ranked first and named in the conclusion |
| CalculatorFactory.GetCalculator | app/src/main/java/com/devianest/countit/calculator/SPKCalculatorFactory.kt:6-17 | SAW gets the SAW calculator and VIKOR the VIKOR calculator; every other method gets its own calculator |
| CalculatorFactory.Run | app/src/main/java/com/devianest/countit/calculator/SPKCalculatorFactory.kt:7-16 | The SAW calculator's outcome is `Saw.Run`'s and the VIKOR calculator's is `Vikor.Run`'s: a run finishes exactly on the inputs that calculator accepts and carries its own method. Other calculators' outcomes pass through |
| Session.KeepContents | app/src/main/java/com/devianest/countit/viewmodel/MainViewModel.kt:44 | The kept elements are exactly those meeting the condition, each as often as before |
| Session.KeepAppend | app/src/main/java/com/devianest/countit/viewmodel/MainViewModel.kt:44 | Filtering a concatenation filters each part in place, so kept elements keep their relative order |
| Session.KeepAll | app/src/main/java/com/devianest/countit/viewmodel/MainViewModel.kt:44 | Filtering with a condition that every element meets changes nothing |
| Session.UpdateTitle | app/src/main/java/com/devianest/countit/viewmodel/MainViewModel.kt:23-25 | The title is set and no other field changes |
| Session.UpdateMethod | app/src/main/java/com/devianest/countit/viewmodel/MainViewModel.kt:27-29 | The method is set and no other field changes |
| Session.AddCategory | app/src/main/java/com/devianest/countit/viewmodel/MainViewModel.kt:31-40 | Exactly one criterion is appended, with the given id, name and orientation; no other field changes |
| Session.AddCategoryDefaultsToBenefit | app/src/main/java/com/devianest/countit/viewmodel/MainViewModel.kt:31 | A criterion added without an orientation is BENEFIT |
| Session.RemoveCategory | app/src/main/java/com/devianest/countit/viewmodel/MainViewModel.kt:42-49 | The criteria left are exactly those with another id, each as often as before. The matrix and weights are cleared; nothing else changes |
| Session.AddAlternative | app/src/main/java/com/devianest/countit/viewmodel/MainViewModel.kt:51-59 | Exactly one alternative is appended, with the given id and name; no other field changes |
| Session.RemoveAlternative | app/src/main/java/com/devianest/countit/viewmodel/MainViewModel.kt:61-68 | The alternatives left are exactly those with another id, each as often as before. The matrix and weights are cleared; nothing else changes |
| Session.RemoveCategoryUndoesAdd | app/src/main/java/com/devianest/countit/viewmodel/MainViewModel.kt:31-49 | Removing a criterion just added under a fresh id restores the criteria list |
| Session.RemoveAlternativeUndoesAdd | app/src/main/java/com/devianest/countit/viewmodel/MainViewModel.kt:51-68 | Removing an alternative just added under a fresh id restores the alternatives list |
| Session.RemoveUnknownCategory | app/src/main/java/com/devianest/countit/viewmodel/MainViewModel.kt:42-49 | Removing an id no criterion has keeps the criteria in order but still clears the matrix and weights |
| Session.RemoveUnknownAlternative | app/src/main/java/com/devianest/countit/viewmodel/MainViewModel.kt:61-68 | Removing an id no alternative has keeps the alternatives in order but still clears the matrix and weights |
| Session.RemovalInvalidates | app/src/main/java/com/devianest/countit/viewmodel/MainViewModel.kt:103-108 | After any removal the project fails the validity guard, since its matrix is empty |
| Session.UpdateMatrix | app/src/main/java/com/devianest/countit/viewmodel/MainViewModel.kt:70-72 | The matrix is replaced and no other field changes |
| Session.UpdateWeights | app/src/main/java/com/devianest/countit/viewmodel/MainViewModel.kt:74-76 | The weights are replaced and no other field changes |
| Session.UpdateMatrixCell | app/src/main/java/com/devianest/countit/viewmodel/MainViewModel.kt:78-86 | An existing cell is set to the value, and every other cell and field is unchanged. An out-of-range row or column changes nothing |
| Session.UpdateMatrixCellKeepsShape | app/src/main/java/com/devianest/countit/viewmodel/MainViewModel.kt:78-86 | Editing a cell keeps a row per alternative and a column per criterion |
| Session.InitializeMatrix | app/src/main/java/com/devianest/countit/viewmodel/MainViewModel.kt:88-101 | With alternatives and criteria present, the matrix becomes an all-zero matrix with a row per alternative and a column per criterion, and the weights become one zero per criterion. Otherwise nothing changes. No other field changes in either case |
| Session.InitializedIsWellShapedButInvalid | app/src/main/java/com/devianest/countit/viewmodel/MainViewModel.kt:88-101 | A freshly initialised project has the screens' shape but fails the validity guard, because its weights are zero |
| Session.CalculateResult | app/src/main/java/com/devianest/countit/viewmodel/MainViewModel.kt:110-136 | An invalid project changes nothing, and the project itself never changes. Under SAW or VIKOR the stored result becomes that calculator's result when it finishes, and stays as it was when it throws |
| Session.IsDataValid | app/src/main/java/com/devianest/countit/viewmodel/MainViewModel.kt:138-147 | The guard: a title with a non-whitespace character, a method, some criteria, alternatives, matrix rows and weights, every weight positive and every entry non-negative. A valid project's title has a non-whitespace character and its weights have a positive sum. No length is compared and the sum need not be one |
| Session.ValidWellShapedSawSucceeds | app/src/main/java/com/devianest/countit/viewmodel/MainViewModel.kt:110-147 | A valid project with a row per alternative and a column and weight per criterion is one SAW finishes, so its result is stored |
| Session.AddCategoryBreaksShape | app/src/main/java/com/devianest/countit/viewmodel/MainViewModel.kt:31-49 | Adding a criterion keeps a valid project valid but breaks its shape, since only removals clear the matrix |
| Session.ValidProjectCanFailSilently | app/src/main/java/com/devianest/countit/viewmodel/MainViewModel.kt:138-147 | The guard does not check the weight sum or the lengths. A valid project with two criteria and one weight passes it, SAW throws, and the stored result is left as it was |
| Session.ResetProject | app/src/main/java/com/devianest/countit/viewmodel/MainViewModel.kt:149-162 | The project returns to its defaults (empty title, no method, no lists) and the stored result is cleared |
| Session.ResetIsInvalid | app/src/main/java/com/devianest/countit/viewmodel/MainViewModel.kt:149-152 | After a reset the guard fails, so a calculation changes nothing |

Kotlin's `isBlank`, used by the validity guard, is modelled with the
whitespace set of Kotlin's `Char.isWhitespace`.

## Left out

- The Compose screens and navigation, including the weight-sum tolerance the matrix screen applies before enabling its button. They are user-interface code.
- Spreadsheet import (ExcelReader.kt): it is file and workbook I/O.
- The coroutine, the `isLoading` flag and the state flows of `calculateResult`. The calculation is modelled as one synchronous step.
- UUID generation: the caller supplies fresh ids as parameters.
- IEEE-754 behaviour (rounding, NaN, infinities): scores are exact reals.
- The WP, TOPSIS, AHP, ELECTRE, PROMETHEE and MOORA calculators: their classes are not part of this model. What they return is a parameter of `CalculatorFactory.Run` and `Session.CalculateResult`.
- Project.kt: an unused duplicate of the project record.
- Saw.Calculate: the conclusion is kept as the alternative and score it names. The Indonesian sentence and its `%.4f` rendering of the score are not modelled.
- Saw.Calculate: a weighted-step header keeps the weight as a number, not as Kotlin's text rendering of a `Double`.
- Placeholder.Result: the conclusion is kept as the method and the alternative it names, not as the sentence.
- Session.UpdateMatrixCell: Kotlin's row and column are `Int`. A negative row passes the bounds test and then makes the list access throw, and so does a negative column under a valid row. That exception is outside any catch. The model takes both indices as `nat`, so it does not promise this failure. The matrix screen passes only indices from iterating the matrix and its criteria (MatrixInputScreen.kt:194-199).
- Saw.NormalizeCell: the `?: 1.0` fallback for an empty column is not modelled. A column of a matrix with rows is never empty, so it cannot be reached.
