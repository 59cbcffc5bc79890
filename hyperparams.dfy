/** The declarative hyperparameter description shared by every searcher
    (the `hyperparams` package: `Numerical`, `Categorial`). */
module Hyperparams {

  /** A tunable parameter. `valueType` is the type string of the source
      (`'int'` or `'float'` for the spaces that are declared); `is_log_scale`
      defaults to false as in the source's constructor. */
  datatype Hyperparameter =
    | Numerical(valueType: string, minValue: real, maxValue: real, isLogScale: bool := false)
    | Categorial(values: seq<string>)

  /** An ordered mapping from parameter name to its description; the order is
      the insertion order of the Python dict. */
  type Space = seq<(string, Hyperparameter)>

  /** A concrete value chosen for one parameter during a trial. */
  datatype Value = IntValue(i: int) | RealValue(r: real) | StrValue(s: string)

  /** A trial's assignment: parameter name to chosen value. */
  type Assignment = map<string, Value>

  /** The numeric type string is one the searchers know how to encode. */
  predicate KnownType(p: Hyperparameter)
  {
    p.Numerical? ==> p.valueType == "int" || p.valueType == "float"
  }

  /** Bounds are ordered, a log-scaled axis starts above zero, and a
      categorical parameter has at least one choice. */
  predicate WellFormed(p: Hyperparameter)
  {
    match p
    case Numerical(_, lo, hi, log) => lo < hi && (log ==> lo > 0.0)
    case Categorial(vs) => |vs| > 0
  }

  /** Names are keys of a dict, so no name occurs twice. */
  predicate DistinctNames(space: Space)
  {
    forall i, j :: 0 <= i < j < |space| ==> space[i].0 != space[j].0
  }

  predicate WellFormedSpace(space: Space)
  {
    DistinctNames(space) &&
    forall i :: 0 <= i < |space| ==> KnownType(space[i].1) && WellFormed(space[i].1)
  }
}
