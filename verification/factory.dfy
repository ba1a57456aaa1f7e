/** The factory that picks a calculator for a method. Only the SAW and VIKOR
    calculators are part of this model; the other six stay opaque, and what
    they return is supplied from outside. */
module CalculatorFactory {
  import opened Model
  import opened Matrices
  import Saw
  import Vikor

  /** The calculator chosen for a method. */
  datatype Calculator = SawCalculator | VikorCalculator | Unmodelled(spkMethod: SPKMethod)

  function GetCalculator(m: SPKMethod): (c: Calculator)
    ensures c == SawCalculator <==> m == SAW
    ensures c == VikorCalculator <==> m == VIKOR
    ensures c.Unmodelled? ==> c.spkMethod == m
  {
    match m
    case SAW => SawCalculator
    case VIKOR => VikorCalculator
    case _ => Unmodelled(m)
  }

  /** Runs a calculator: a result, or `None` for a thrown exception. The
      outcome `other` stands for whatever an unmodelled calculator yields. */
  function Run(
    c: Calculator, alternatives: seq<string>, criteria: seq<string>, matrix: Matrix,
    weights: seq<real>, criteriaTypes: seq<CriteriaType>, other: Option<CalculationResult>)
    : (r: Option<CalculationResult>)
    ensures c == SawCalculator ==>
      (r.Some? <==> Saw.Computable(alternatives, criteria, matrix, weights, criteriaTypes))
      && (r.Some? ==> r.value.spkMethod == SAW)
    ensures c == VikorCalculator ==>
      (r.Some? <==> |matrix| >= |alternatives|) && (r.Some? ==> r.value.spkMethod == VIKOR)
    ensures c == SawCalculator ==> r == Saw.Run(alternatives, criteria, matrix, weights, criteriaTypes)
    ensures c == VikorCalculator ==> r == Vikor.Run(alternatives, criteria, matrix, weights, criteriaTypes)
    ensures c.Unmodelled? ==> r == other
  {
    match c
    case SawCalculator => Saw.Run(alternatives, criteria, matrix, weights, criteriaTypes)
    case VikorCalculator => Vikor.Run(alternatives, criteria, matrix, weights, criteriaTypes)
    case Unmodelled(_) => other
  }
}
