/** The plain data the decision calculators and the session state exchange.
    Kotlin's `List` becomes `seq`, `Double` becomes `real`, a nullable value
    becomes `Option`. */
module Model {

  datatype Option<+T> = None | Some(value: T)

  /** The eight decision-support methods a project can select, each with the
      label the screens show. */
  datatype SPKMethod = SAW | WP | TOPSIS | AHP | ELECTRE | PROMETHEE | MOORA | VIKOR
  {
    function DisplayName(): string {
      match this
      case SAW => "Simple Additive Weighting (SAW)"
      case WP => "Weighted Product (WP)"
      case TOPSIS => "TOPSIS"
      case AHP => "Analytical Hierarchy Process (AHP)"
      case ELECTRE => "ELECTRE"
      case PROMETHEE => "PROMETHEE"
      case MOORA => "MOORA"
      case VIKOR => "VIKOR"
    }
  }

  /** Orientation of a criterion: higher is better, or lower is better. */
  datatype CriteriaType = BENEFIT | COST

  /** A criterion of the project. */
  datatype Category = Category(id: string, name: string, criteriaType: CriteriaType)

  /** A candidate being ranked. */
  datatype Alternative = Alternative(id: string, name: string)

  /** A column label of a trace step. The weighted-matrix step of SAW labels
      each criterion together with its weight; the text rendering of that
      weight is not modelled, so it is kept as a number. */
  datatype Header = Label(text: string) | Weighted(text: string, weight: real)

  /** One recorded stage of a calculation. */
  datatype CalculationStep = CalculationStep(
    stepName: string,
    description: string,
    matrix: seq<seq<real>>,
    columnHeaders: seq<Header>,
    rowHeaders: seq<string>)

  /** An alternative's name paired with its score (Kotlin's `Pair<String, Double>`). */
  datatype Scored = Scored(name: string, score: real)

  /** The closing sentence of a result, kept as what it names. SAW names the
      best alternative and its score; the placeholder methods name a
      tentative best alternative (the empty name when there is none). */
  datatype Conclusion =
    | BestWithScore(name: string, score: real)
    | Tentative(spkMethod: SPKMethod, name: string)

  datatype CalculationResult = CalculationResult(
    spkMethod: SPKMethod,
    steps: seq<CalculationStep>,
    finalScores: seq<Scored>,
    ranking: seq<Scored>,
    conclusion: Conclusion)

  /** Headers that are just the given names. */
  function Labels(names: seq<string>): seq<Header> {
    seq(|names|, i requires 0 <= i < |names| => Label(names[i]))
  }

  /** The names of a score list, in order. */
  function Names(s: seq<Scored>): seq<string> {
    seq(|s|, i requires 0 <= i < |s| => s[i].name)
  }
}
