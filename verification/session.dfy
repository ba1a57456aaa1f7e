/** The project session: the editable project record, the mutators the
    screens call, the validity test that guards a calculation, and the
    calculation's effect on the stored result. Every mutator is a copy with
    some fields replaced; none of them touches the stored result. */
module Session {
  import opened Model
  import opened Matrices
  import Saw
  import Vikor
  import CalculatorFactory

  /** The project being edited. */
  datatype ProjectUiState = ProjectUiState(
    title: string,
    spkMethod: Option<SPKMethod>,
    categories: seq<Category>,
    alternatives: seq<Alternative>,
    matrix: Matrix,
    weights: seq<real>)

  /** A fresh project: no title, no method, nothing entered. */
  const DefaultUiState := ProjectUiState("", None, [], [], [], [])

  /** The session: the project and the last calculation result, if any. */
  datatype ViewModel = ViewModel(uiState: ProjectUiState, calculationResult: Option<CalculationResult>)

  const InitialViewModel := ViewModel(DefaultUiState, None)

  // ---------------------------------------------------------------------
  // Filtering a list, order kept

  /** The elements of `xs` satisfying `p`, in their original order. */
  function Keep<T>(xs: seq<T>, p: T -> bool): seq<T> {
    if |xs| == 0 then [] else (if p(xs[0]) then [xs[0]] else []) + Keep(xs[1..], p)
  }

  /** The kept elements are exactly those satisfying `p`, each as often as
      in `xs`. */
  lemma {:induction false} KeepContents<T(!new)>(xs: seq<T>, p: T -> bool)
    ensures forall x :: x in Keep(xs, p) <==> x in xs && p(x)
    ensures forall x :: multiset(Keep(xs, p))[x] == if p(x) then multiset(xs)[x] else 0
  {
    if |xs| > 0 {
      assert xs == [xs[0]] + xs[1..];
      KeepContents(xs[1..], p);
    }
  }

  /** Filtering a concatenation filters each part in place, so the kept
      elements stay in their original relative order. */
  lemma {:induction false} KeepAppend<T>(a: seq<T>, b: seq<T>, p: T -> bool)
    ensures Keep(a + b, p) == Keep(a, p) + Keep(b, p)
  {
    if |a| == 0 {
      assert a + b == b;
    } else {
      assert (a + b)[1..] == a[1..] + b;
      KeepAppend(a[1..], b, p);
    }
  }

  /** Filtering with a condition every element meets changes nothing. */
  lemma {:induction false} KeepAll<T>(xs: seq<T>, p: T -> bool)
    requires forall i :: 0 <= i < |xs| ==> p(xs[i])
    ensures Keep(xs, p) == xs
  {
    if |xs| > 0 {
      KeepAll(xs[1..], p);
    }
  }

  function OtherCategory(id: string): Category -> bool {
    (c: Category) => c.id != id
  }

  function OtherAlternative(id: string): Alternative -> bool {
    (a: Alternative) => a.id != id
  }

  // ---------------------------------------------------------------------
  // Mutators

  function UpdateTitle(s: ProjectUiState, title: string): (r: ProjectUiState)
    ensures r.title == title
    ensures r.(title := s.title) == s
  {
    s.(title := title)
  }

  function UpdateMethod(s: ProjectUiState, m: SPKMethod): (r: ProjectUiState)
    ensures r.spkMethod == Some(m)
    ensures r.(spkMethod := s.spkMethod) == s
  {
    s.(spkMethod := Some(m))
  }

  /** Appends one criterion with the caller's fresh `id`; the orientation
      defaults to BENEFIT. */
  function AddCategory(s: ProjectUiState, id: string, name: string, criteriaType: CriteriaType := BENEFIT)
    : (r: ProjectUiState)
    ensures |r.categories| == |s.categories| + 1
    ensures r.categories[..|s.categories|] == s.categories
    ensures r.categories[|s.categories|] == Category(id, name, criteriaType)
    ensures r.(categories := s.categories) == s
  {
    s.(categories := s.categories + [Category(id, name, criteriaType)])
  }

  /** Drops every criterion with the given id (none, one or several), keeps
      the rest, and always clears the matrix and the weights. */
  function RemoveCategory(s: ProjectUiState, id: string): (r: ProjectUiState)
    ensures forall c :: c in r.categories <==> c in s.categories && c.id != id
    ensures forall c: Category :: c.id != id ==> multiset(r.categories)[c] == multiset(s.categories)[c]
    ensures r.matrix == [] && r.weights == []
    ensures r.(categories := s.categories, matrix := s.matrix, weights := s.weights) == s
  {
    KeepContents(s.categories, OtherCategory(id));
    s.(categories := Keep(s.categories, OtherCategory(id)), matrix := [], weights := [])
  }

  /** Appends one alternative with the caller's fresh `id`. */
  function AddAlternative(s: ProjectUiState, id: string, name: string): (r: ProjectUiState)
    ensures |r.alternatives| == |s.alternatives| + 1
    ensures r.alternatives[..|s.alternatives|] == s.alternatives
    ensures r.alternatives[|s.alternatives|] == Alternative(id, name)
    ensures r.(alternatives := s.alternatives) == s
  {
    s.(alternatives := s.alternatives + [Alternative(id, name)])
  }

  /** Drops every alternative with the given id, keeps the rest, and always
      clears the matrix and the weights. */
  function RemoveAlternative(s: ProjectUiState, id: string): (r: ProjectUiState)
    ensures forall a :: a in r.alternatives <==> a in s.alternatives && a.id != id
    ensures forall a: Alternative :: a.id != id ==> multiset(r.alternatives)[a] == multiset(s.alternatives)[a]
    ensures r.matrix == [] && r.weights == []
    ensures r.(alternatives := s.alternatives, matrix := s.matrix, weights := s.weights) == s
  {
    KeepContents(s.alternatives, OtherAlternative(id));
    s.(alternatives := Keep(s.alternatives, OtherAlternative(id)), matrix := [], weights := [])
  }

  function UpdateMatrix(s: ProjectUiState, matrix: Matrix): (r: ProjectUiState)
    ensures r.matrix == matrix
    ensures r.(matrix := s.matrix) == s
  {
    s.(matrix := matrix)
  }

  function UpdateWeights(s: ProjectUiState, weights: seq<real>): (r: ProjectUiState)
    ensures r.weights == weights
    ensures r.(weights := s.weights) == s
  {
    s.(weights := weights)
  }

  /** Whether (row, col) names an existing cell. Kotlin's indices are `Int`;
      a negative one makes the list access throw, so they are modelled as
      `nat`. */
  predicate InBounds(m: Matrix, row: nat, col: nat) {
    row < |m| && col < |m[row]|
  }

  /** Sets one cell when it exists; otherwise does nothing. */
  function UpdateMatrixCell(s: ProjectUiState, row: nat, col: nat, value: real): (r: ProjectUiState)
    ensures !InBounds(s.matrix, row, col) ==> r == s
    ensures r.(matrix := s.matrix) == s
    ensures SameShape(r.matrix, s.matrix)
    ensures forall i, j :: 0 <= i < |s.matrix| && 0 <= j < |s.matrix[i]| ==>
      r.matrix[i][j] == if InBounds(s.matrix, row, col) && i == row && j == col then value else s.matrix[i][j]
  {
    if InBounds(s.matrix, row, col) then
      s.(matrix := s.matrix[row := s.matrix[row][col := value]])
    else s
  }

  /** A `rows` by `cols` matrix of zeros. */
  function Zeros(rows: nat, cols: nat): Matrix {
    seq(rows, _ => seq(cols, _ => 0.0))
  }

  /** With at least one alternative and one criterion: an all-zero matrix
      with a row per alternative and a column per criterion, and a zero
      weight per criterion. Otherwise nothing changes. */
  function InitializeMatrix(s: ProjectUiState): (r: ProjectUiState)
    ensures |s.alternatives| > 0 && |s.categories| > 0 ==>
      && |r.matrix| == |s.alternatives|
      && (forall i :: 0 <= i < |r.matrix| ==> |r.matrix[i]| == |s.categories|)
      && (forall i, j :: 0 <= i < |r.matrix| && 0 <= j < |r.matrix[i]| ==> r.matrix[i][j] == 0.0)
      && |r.weights| == |s.categories|
      && (forall j :: 0 <= j < |r.weights| ==> r.weights[j] == 0.0)
    ensures |s.alternatives| == 0 || |s.categories| == 0 ==> r == s
    ensures r.(matrix := s.matrix, weights := s.weights) == s
  {
    var rows := |s.alternatives|;
    var cols := |s.categories|;
    if rows > 0 && cols > 0 then
      s.(matrix := Zeros(rows, cols), weights := seq(cols, _ => 0.0))
    else s
  }

  // ---------------------------------------------------------------------
  // Validity

  /** Kotlin's `Char.isWhitespace`: Java's whitespace characters together
      with the Unicode space, line and paragraph separators. */
  predicate IsWhitespace(c: char) {
    || '\t' <= c <= '\r'
    || '\U{001C}' <= c <= ' '
    || c == '\U{00A0}'
    || c == '\U{1680}'
    || '\U{2000}' <= c <= '\U{200A}'
    || c == '\U{2028}' || c == '\U{2029}'
    || c == '\U{202F}' || c == '\U{205F}'
    || c == '\U{3000}'
  }

  /** Kotlin's `isBlank`: empty, or whitespace only. */
  predicate IsBlank(t: string) {
    forall i :: 0 <= i < |t| ==> IsWhitespace(t[i])
  }

  /** The guard before a calculation. It asks for a title, a method, some
      criteria, alternatives, matrix rows and weights, positive weights and
      non-negative entries; it does not compare any of the lengths, and does
      not ask the weights to sum to one. */
  function IsDataValid(s: ProjectUiState): (valid: bool)
    ensures valid ==> exists i :: 0 <= i < |s.title| && !IsWhitespace(s.title[i])
    ensures valid ==> Sum(s.weights) > 0.0
  {
    PositiveSum(s.weights);
    && !IsBlank(s.title)
    && s.spkMethod.Some?
    && |s.categories| > 0
    && |s.alternatives| > 0
    && |s.matrix| > 0
    && |s.weights| > 0
    && (forall j :: 0 <= j < |s.weights| ==> s.weights[j] > 0.0)
    && (forall i, j :: 0 <= i < |s.matrix| && 0 <= j < |s.matrix[i]| ==> s.matrix[i][j] >= 0.0)
  }

  /** The shape the screens maintain: a row per alternative, a column and a
      weight per criterion. */
  predicate WellShaped(s: ProjectUiState) {
    && |s.matrix| == |s.alternatives|
    && (forall i :: 0 <= i < |s.matrix| ==> |s.matrix[i]| == |s.categories|)
    && |s.weights| == |s.categories|
  }

  // ---------------------------------------------------------------------
  // Calculation and reset

  function AlternativeNames(alternatives: seq<Alternative>): (r: seq<string>)
    ensures |r| == |alternatives|
  {
    seq(|alternatives|, i requires 0 <= i < |alternatives| => alternatives[i].name)
  }

  function CategoryNames(categories: seq<Category>): (r: seq<string>)
    ensures |r| == |categories|
  {
    seq(|categories|, i requires 0 <= i < |categories| => categories[i].name)
  }

  function CategoryTypes(categories: seq<Category>): (r: seq<CriteriaType>)
    ensures |r| == |categories|
  {
    seq(|categories|, i requires 0 <= i < |categories| => categories[i].criteriaType)
  }

  /** The selected calculator run on the project, `None` when it throws. */
  function Outcome(s: ProjectUiState, other: Option<CalculationResult>): Option<CalculationResult>
    requires s.spkMethod.Some?
  {
    CalculatorFactory.Run(
      CalculatorFactory.GetCalculator(s.spkMethod.value),
      AlternativeNames(s.alternatives), CategoryNames(s.categories), s.matrix, s.weights,
      CategoryTypes(s.categories), other)
  }

  /** The SAW calculator's outcome on the project. */
  function SawOutcome(s: ProjectUiState): Option<CalculationResult> {
    Saw.Run(AlternativeNames(s.alternatives), CategoryNames(s.categories), s.matrix, s.weights,
            CategoryTypes(s.categories))
  }

  /** The VIKOR calculator's outcome on the project. */
  function VikorOutcome(s: ProjectUiState): Option<CalculationResult> {
    Vikor.Run(AlternativeNames(s.alternatives), CategoryNames(s.categories), s.matrix, s.weights,
              CategoryTypes(s.categories))
  }

  /** The calculation without its coroutine: an invalid project changes
      nothing; otherwise a result replaces the stored one, and a thrown
      exception (`None`) leaves the stored one as it was. `other` is the
      outcome of a calculator outside this model. */
  function CalculateResult(vm: ViewModel, other: Option<CalculationResult>): (r: ViewModel)
    ensures !IsDataValid(vm.uiState) ==> r == vm
    ensures r.uiState == vm.uiState
    ensures r != vm ==> IsDataValid(vm.uiState) && r.calculationResult.Some?
    ensures IsDataValid(vm.uiState) && vm.uiState.spkMethod == Some(SAW) ==>
      r.calculationResult == (if SawOutcome(vm.uiState).Some? then SawOutcome(vm.uiState) else vm.calculationResult)
    ensures IsDataValid(vm.uiState) && vm.uiState.spkMethod == Some(VIKOR) ==>
      r.calculationResult == (if VikorOutcome(vm.uiState).Some? then VikorOutcome(vm.uiState) else vm.calculationResult)
  {
    if !IsDataValid(vm.uiState) then vm
    else
      match Outcome(vm.uiState, other)
      case Some(result) => vm.(calculationResult := Some(result))
      case None => vm
  }

  /** Back to a fresh project with no stored result. */
  function ResetProject(vm: ViewModel): (r: ViewModel)
    ensures r.uiState.title == "" && r.uiState.spkMethod == None
    ensures r.uiState.categories == [] && r.uiState.alternatives == []
    ensures r.uiState.matrix == [] && r.uiState.weights == []
    ensures r.calculationResult == None
  {
    InitialViewModel
  }

  // ---------------------------------------------------------------------
  // Properties of the session

  /** The orientation of a criterion added without one is BENEFIT. */
  lemma AddCategoryDefaultsToBenefit(s: ProjectUiState, id: string, name: string)
    ensures AddCategory(s, id, name).categories[|s.categories|].criteriaType == BENEFIT
  {
  }

  /** Removing a criterion just added under a fresh id gives back the
      criteria as they were (the matrix and weights are cleared all the
      same). */
  lemma RemoveCategoryUndoesAdd(s: ProjectUiState, id: string, name: string, criteriaType: CriteriaType)
    requires forall i :: 0 <= i < |s.categories| ==> s.categories[i].id != id
    ensures RemoveCategory(AddCategory(s, id, name, criteriaType), id).categories == s.categories
  {
    var p := OtherCategory(id);
    KeepAppend(s.categories, [Category(id, name, criteriaType)], p);
    KeepAll(s.categories, p);
    assert Keep([Category(id, name, criteriaType)], p) == [];
  }

  /** Removing an alternative just added under a fresh id gives back the
      alternatives as they were. */
  lemma RemoveAlternativeUndoesAdd(s: ProjectUiState, id: string, name: string)
    requires forall i :: 0 <= i < |s.alternatives| ==> s.alternatives[i].id != id
    ensures RemoveAlternative(AddAlternative(s, id, name), id).alternatives == s.alternatives
  {
    var p := OtherAlternative(id);
    KeepAppend(s.alternatives, [Alternative(id, name)], p);
    KeepAll(s.alternatives, p);
    assert Keep([Alternative(id, name)], p) == [];
  }

  /** Removing an id no criterion has keeps the criteria in order, yet still
      clears the matrix and the weights. */
  lemma RemoveUnknownCategory(s: ProjectUiState, id: string)
    requires forall i :: 0 <= i < |s.categories| ==> s.categories[i].id != id
    ensures RemoveCategory(s, id).categories == s.categories
    ensures RemoveCategory(s, id) == s.(matrix := [], weights := [])
  {
    KeepAll(s.categories, OtherCategory(id));
  }

  /** Removing an id no alternative has keeps the alternatives in order, yet
      still clears the matrix and the weights. */
  lemma RemoveUnknownAlternative(s: ProjectUiState, id: string)
    requires forall i :: 0 <= i < |s.alternatives| ==> s.alternatives[i].id != id
    ensures RemoveAlternative(s, id).alternatives == s.alternatives
    ensures RemoveAlternative(s, id) == s.(matrix := [], weights := [])
  {
    KeepAll(s.alternatives, OtherAlternative(id));
  }

  /** After a removal the project is never valid: its matrix is empty. */
  lemma RemovalInvalidates(s: ProjectUiState, id: string)
    ensures !IsDataValid(RemoveCategory(s, id))
    ensures !IsDataValid(RemoveAlternative(s, id))
  {
  }

  /** A freshly initialised matrix has the screens' shape, but the project
      is not yet valid: every weight is zero. */
  lemma InitializedIsWellShapedButInvalid(s: ProjectUiState)
    requires |s.alternatives| > 0 && |s.categories| > 0
    ensures WellShaped(InitializeMatrix(s))
    ensures !IsDataValid(InitializeMatrix(s))
  {
    assert InitializeMatrix(s).weights[0] == 0.0;
  }

  /** Editing a cell keeps the shape. */
  lemma UpdateMatrixCellKeepsShape(s: ProjectUiState, row: nat, col: nat, value: real)
    requires WellShaped(s)
    ensures WellShaped(UpdateMatrixCell(s, row, col, value))
  {
  }

  /** A valid project that has the screens' shape is one SAW can finish, so
      calculating with SAW stores SAW's result. */
  lemma ValidWellShapedSawSucceeds(vm: ViewModel, other: Option<CalculationResult>)
    requires IsDataValid(vm.uiState) && WellShaped(vm.uiState)
    requires vm.uiState.spkMethod == Some(SAW)
    ensures var s := vm.uiState;
            CalculateResult(vm, other).calculationResult
              == Some(Saw.Calculate(AlternativeNames(s.alternatives), CategoryNames(s.categories),
                                    s.matrix, s.weights, CategoryTypes(s.categories)))
  {
    var s := vm.uiState;
    assert Rectangular(s.matrix) by {
      forall i | 0 <= i < |s.matrix| ensures |s.matrix[i]| == |s.matrix[0]| {
      }
    }
    assert Width(s.matrix) == |s.categories|;
    assert Saw.Computable(AlternativeNames(s.alternatives), CategoryNames(s.categories),
                          s.matrix, s.weights, CategoryTypes(s.categories));
  }

  /** Adding a criterion to a valid, well-shaped project keeps it valid but
      not well-shaped: unlike a removal, an addition leaves the matrix and
      weights as they were. */
  lemma AddCategoryBreaksShape(s: ProjectUiState, id: string, name: string, criteriaType: CriteriaType)
    requires IsDataValid(s) && WellShaped(s)
    ensures IsDataValid(AddCategory(s, id, name, criteriaType))
    ensures !WellShaped(AddCategory(s, id, name, criteriaType))
  {
    assert |AddCategory(s, id, name, criteriaType).weights| == |s.categories|;
  }

  /** The project that adding a second criterion to a one-by-one SAW
      project leaves behind: valid, with weights that do not sum to one. */
  const MisshapedProject := ProjectUiState(
    "P", Some(SAW),
    [Category("c1", "C1", BENEFIT), Category("c2", "C2", BENEFIT)],
    [Alternative("a1", "A1")],
    [[1.0]], [2.0])

  /** The guard lets the misshaped project through, and SAW then throws on
      the second criterion's missing weight: the stored result stays what
      it was. */
  lemma ValidProjectCanFailSilently(previous: Option<CalculationResult>, other: Option<CalculationResult>)
    ensures IsDataValid(MisshapedProject)
    ensures Sum(MisshapedProject.weights) != 1.0
    ensures CalculateResult(ViewModel(MisshapedProject, previous), other).calculationResult == previous
  {
    assert !IsWhitespace(MisshapedProject.title[0]);
    assert CategoryNames(MisshapedProject.categories) == ["C1", "C2"];
    assert Sum(MisshapedProject.weights) == 2.0;
  }

  /** After a reset nothing can be calculated. */
  lemma ResetIsInvalid(vm: ViewModel, other: Option<CalculationResult>)
    ensures !IsDataValid(ResetProject(vm).uiState)
    ensures CalculateResult(ResetProject(vm), other) == ResetProject(vm)
  {
  }
}
