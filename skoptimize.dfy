/** The Scikit-Optimize searcher adapter: it translates a hyperparameter space
    into skopt's native dimensions and drives the Gaussian-process minimiser,
    recording one Point per objective call. */
module Skoptimize {
  import opened Wrappers
  import opened Hyperparams

  const FrameworkName: string := "Scikit-Optimize"

  /** The prior of a numeric skopt dimension: `'uniform'` or `'log-uniform'`. */
  datatype Prior = Uniform | LogUniform

  /** skopt's native dimensions `Integer`, `Real` and `Categorical`, each
      carrying the name it is bound to. */
  datatype Dimension =
    | Integer(low: real, high: real, prior: Prior, name: string)
    | Real(low: real, high: real, prior: Prior, name: string)
    | Categorical(categories: seq<string>, name: string)

  /** Looking up a type string missing from the `{'int': .., 'float': ..}` table. */
  datatype EncodeError = KeyError(key: string)

  /** The outcome of one trial: the assignment tried and its metric value
      (higher is better). */
  datatype Point = Point(params: Assignment, value: real)

  /** One entry of the space in native form, as the loop body builds it. */
  function EncodeDimension(name: string, p: Hyperparameter): (r: Result<Dimension, EncodeError>)
    ensures r.Ok? <==> KnownType(p)
    ensures r.Err? ==> r.error == KeyError(p.valueType)
    ensures r.Ok? ==> r.value.name == name
    ensures r.Ok? && p.Numerical? ==>
      (r.value.Integer? <==> p.valueType == "int") &&
      (r.value.Real? <==> p.valueType == "float") &&
      !r.value.Categorical? &&
      r.value.low == p.minValue && r.value.high == p.maxValue &&
      (r.value.prior == LogUniform <==> p.isLogScale)
    ensures p.Categorial? ==> r.Ok? && r.value.Categorical? && r.value.categories == p.values
  {
    match p
    case Numerical(t, lo, hi, log) =>
      var prior := if log then LogUniform else Uniform;
      if t == "int" then Ok(Integer(lo, hi, prior, name))
      else if t == "float" then Ok(Real(lo, hi, prior, name))
      else Err(KeyError(t))
    case Categorial(values) => Ok(Categorical(values, name))
  }

  /** Entry `k` is the first whose numeric type string is not in the table. */
  predicate FirstUnknown(space: Space, k: int)
  {
    0 <= k < |space| && !KnownType(space[k].1) &&
    forall j :: 0 <= j < k ==> KnownType(space[j].1)
  }

  /** The whole space in native form: one dimension per entry in the same
      order, or the error of the first entry that cannot be encoded. */
  function EncodeSpace(space: Space): (r: Result<seq<Dimension>, EncodeError>)
    ensures r.Ok? <==> forall i :: 0 <= i < |space| ==> KnownType(space[i].1)
    ensures r.Ok? ==> |r.value| == |space|
    ensures r.Ok? ==> forall i :: 0 <= i < |space| ==> EncodeDimension(space[i].0, space[i].1) == Ok(r.value[i])
    ensures r.Err? ==> exists k :: FirstUnknown(space, k) && r.error == KeyError(space[k].1.valueType)
  {
    if space == [] then Ok([])
    else
      match EncodeDimension(space[0].0, space[0].1)
      case Err(e) => Err(e)
      case Ok(d) =>
        match EncodeSpace(space[1..])
        case Err(e) => Err(e)
        case Ok(ds) => Ok([d] + ds)
  }

  /** The bounds and prior of a dimension are acceptable to skopt: `low < high`,
      and a log-uniform axis starts above zero. */
  predicate ValidDimension(d: Dimension)
  {
    match d
    case Integer(lo, hi, prior, _) => lo < hi && (prior == LogUniform ==> lo > 0.0)
    case Real(lo, hi, prior, _) => lo < hi && (prior == LogUniform ==> lo > 0.0)
    case Categorical(cs, _) => |cs| > 0
  }

  /** A well-formed space always encodes, into valid dimensions whose names
      are pairwise distinct. */
  lemma WellFormedSpaceEncodes(space: Space)
    requires WellFormedSpace(space)
    ensures EncodeSpace(space).Ok?
    ensures forall i :: 0 <= i < |space| ==> ValidDimension(EncodeSpace(space).value[i])
    ensures forall i, j :: 0 <= i < j < |space| ==> EncodeSpace(space).value[i].name != EncodeSpace(space).value[j].name
  {
  }

  /** The values handed back to the minimiser for the points recorded so far:
      each point's value with its sign flipped. */
  function Feedback(points: seq<Point>): (ys: seq<real>)
  {
    seq(|points|, i requires 0 <= i < |points| => -points[i].value)
  }

  /** The points `gp_minimize` leaves behind after `n` objective calls, where
      `ask` is the minimiser's choice of the next assignment given the space
      and the values it has been returned so far. */
  function Run(dims: seq<Dimension>, ask: (seq<Dimension>, seq<real>) -> Assignment,
               metric: Assignment -> Point, n: nat): (points: seq<Point>)
    ensures |points| == n
  {
    if n == 0 then []
    else
      var earlier := Run(dims, ask, metric, n - 1);
      earlier + [metric(ask(dims, Feedback(earlier)))]
  }

  /** Later calls only append: the first `m` points never change. */
  lemma {:induction false} RunPrefix(dims: seq<Dimension>, ask: (seq<Dimension>, seq<real>) -> Assignment,
                                     metric: Assignment -> Point, m: nat, n: nat)
    requires m <= n
    ensures Run(dims, ask, metric, m) == Run(dims, ask, metric, n)[..m]
    decreases n
  {
    if m < n {
      RunPrefix(dims, ask, metric, m, n - 1);
      var earlier := Run(dims, ask, metric, n - 1);
      assert Run(dims, ask, metric, n)[..n - 1] == earlier;
    }
  }

  /** The k-th recorded point is the metric of the k-th proposed assignment,
      and that proposal saw exactly the negated values of the k earlier points. */
  lemma RunPointAt(dims: seq<Dimension>, ask: (seq<Dimension>, seq<real>) -> Assignment,
                   metric: Assignment -> Point, n: nat, k: nat)
    requires k < n
    ensures var points := Run(dims, ask, metric, n);
      points[k] == metric(ask(dims, Feedback(points[..k])))
  {
    RunPrefix(dims, ask, metric, k + 1, n);
    var points := Run(dims, ask, metric, n);
    assert Run(dims, ask, metric, k + 1)[k] == points[k];
    RunPrefix(dims, ask, metric, k, n);
  }

  /** The `objective` closure together with the `points` list it captures. */
  class Objective {
    const metric: Assignment -> Point
    var points: seq<Point>

    constructor (metric: Assignment -> Point)
      ensures this.metric == metric && points == []
    {
      this.metric := metric;
      points := [];
    }

    /** One call: record exactly one point at the end, and give the minimiser
        the negation of its value. */
    method Call(params: Assignment) returns (y: real)
      modifies this
      ensures points == old(points) + [metric(params)]
      ensures y == -points[|points| - 1].value
    {
      var point := metric(params);
      points := points + [point];
      y := -point.value;
    }
  }

  /** The Gaussian-process searcher: its trial budget, determinism flag and the
      space it is bound to. */
  datatype SkoptSearcher = SkoptSearcher(maxIter: nat, isDeterministic: bool, hyperparams: Space)
  {
    /** skopt needs no searcher-specific parameters. */
    function GetSearcherParams(): (r: map<string, Value>)
      ensures r.Keys == {}
    {
      map[]
    }

    /** Translates the bound space into skopt dimensions by appending one per
        entry, in insertion order. */
    method GetHyperparamSpace() returns (r: Result<seq<Dimension>, EncodeError>)
      ensures r == EncodeSpace(hyperparams)
    {
      var space: seq<Dimension> := [];
      var i := 0;
      while i < |hyperparams|
        invariant 0 <= i <= |hyperparams|
        invariant |space| == i
        invariant forall j :: 0 <= j < i ==> EncodeDimension(hyperparams[j].0, hyperparams[j].1) == Ok(space[j])
      {
        var (name, p) := hyperparams[i];
        var param := EncodeDimension(name, p);
        if param.Err? {
          ghost var expected := EncodeSpace(hyperparams);
          assert !expected.Ok?;
          return Err(param.error);
        }
        space := space + [param.value];
        i := i + 1;
      }
      ghost var expected := EncodeSpace(hyperparams);
      assert expected.Ok? by {
        forall j | 0 <= j < |hyperparams| ensures KnownType(hyperparams[j].1) {
          assert EncodeDimension(hyperparams[j].0, hyperparams[j].1).Ok?;
        }
      }
      assert forall j :: 0 <= j < |space| ==> expected.value[j] == space[j];
      assert expected.value == space;
      return Ok(space);
    }

    /** Runs the minimiser for `maxIter` objective calls and returns the
        recorded points in call order. */
    method GetPoints(ask: (seq<Dimension>, seq<real>) -> Assignment, metric: Assignment -> Point)
      returns (r: Result<seq<Point>, EncodeError>)
      ensures r.Ok? <==> EncodeSpace(hyperparams).Ok?
      ensures r.Err? ==> r.error == EncodeSpace(hyperparams).error
      ensures r.Ok? ==> r.value == Run(EncodeSpace(hyperparams).value, ask, metric, maxIter)
    {
      var encoded := GetHyperparamSpace();
      if encoded.Err? {
        return Err(encoded.error);
      }
      var space := encoded.value;
      var objective := new Objective(metric);
      var returned: seq<real> := [];
      var calls := 0;
      while calls < maxIter
        invariant 0 <= calls <= maxIter
        invariant objective.points == Run(space, ask, metric, calls)
        invariant returned == Feedback(objective.points)
      {
        var y := objective.Call(ask(space, returned));
        returned := returned + [y];
        calls := calls + 1;
      }
      return Ok(objective.points);
    }
  }
}
