/** The benchmark's configuration tables and the checks applied to the parsed
    command-line arguments before a run is set up. */
module ArgParser {
  import opened Wrappers
  import opened Hyperparams

  /** The estimator classes imported from sklearn and xgboost. */
  datatype EstimatorClass = SVC | SVR | XGBClassifier | XGBRegressor | MLPClassifier | MLPRegressor

  /** An estimator factory: the class itself, or a `functools.partial` over it
      (its bound keyword arguments are not modelled). */
  datatype Factory = Class(cls: EstimatorClass) | Partial(func: EstimatorClass)

  /** The dataset classes of the `data` package, as opaque tokens. */
  datatype DatasetClass =
    | Balance | BankMarketing | Banknote | BreastCancer | CarEvaluation | CNAE9
    | CreditApproval | Digits | Ecoli | Parkinsons | Semeion | StatlogSegmentation
    | Wilt | Zoo | Transformator | Turbine

  /** The exceptions raised: `ValueError` for an unknown name, `AssertionError`
      with its message for a failed check. */
  datatype ArgError =
    | UnsupportedEstimator(estimatorName: string)
    | UnsupportedDataset(datasetName: string)
    | AssertionFailed(message: string)

  /** The text the exception carries. */
  function Message(e: ArgError): string
  {
    match e
    case UnsupportedEstimator(name) => "Estimator \"" + name + "\" do not support"
    case UnsupportedDataset(name) => " Dataset \"" + name + "\" do not support"
    case AssertionFailed(message) => message
  }

  const SvcSpace: Space := [
    ("gamma", Numerical("float", 0.001, 1.0, isLogScale := true)),
    ("C", Numerical("int", 100000.0, 1000000000.0, isLogScale := true))]

  const SvrSpace: Space := [
    ("gamma", Numerical("float", 0.00001, 1.0, isLogScale := true)),
    ("C", Numerical("int", 1.0, 100000.0, isLogScale := true))]

  const XgbClassifierSpace: Space := [
    ("n_estimators", Numerical("int", 10.0, 200.0)),
    ("max_depth", Numerical("int", 5.0, 20.0)),
    ("min_child_weight", Numerical("int", 1.0, 10.0)),
    ("gamma", Numerical("float", 0.01, 0.6)),
    ("subsample", Numerical("float", 0.05, 0.95)),
    ("colsample_bytree", Numerical("float", 0.05, 0.95)),
    ("learning_rate", Numerical("float", 0.001, 0.1, isLogScale := true))]

  const XgbRegressorSpace: Space := [
    ("subsample", Numerical("float", 0.5, 1.0)),
    ("learning_rate", Numerical("float", 0.1, 0.4))]

  const MlpClassifierSpace: Space := [
    ("hidden_layer_sizes", Numerical("int", 2.0, 150.0)),
    ("activation", Categorial(["logistic", "tanh", "relu"])),
    ("solver", Categorial(["lbfgs", "sgd", "adam"])),
    ("alpha", Numerical("float", 0.000000001, 0.1, isLogScale := true))]

  const MlpRegressorSpace: Space := [
    ("hidden_layer_sizes", Numerical("int", 2.0, 150.0)),
    ("activation", Categorial(["logistic", "tanh", "relu"])),
    ("solver", Categorial(["lbfgs", "sgd", "adam"])),
    ("alpha", Numerical("float", 0.000000001, 0.1, isLogScale := true))]

  const MethodToHyperparams: map<EstimatorClass, Space> := map[
    SVC := SvcSpace,
    SVR := SvrSpace,
    XGBClassifier := XgbClassifierSpace,
    XGBRegressor := XgbRegressorSpace,
    MLPClassifier := MlpClassifierSpace,
    MLPRegressor := MlpRegressorSpace
  ]

  const NameToDataset: map<string, DatasetClass> := map[
    "balance" := Balance,
    "bank-marketing" := BankMarketing,
    "banknote" := Banknote,
    "breast-cancer" := BreastCancer,
    "car-evaluation" := CarEvaluation,
    "cnae9" := CNAE9,
    "credit-approval" := CreditApproval,
    "digits" := Digits,
    "ecoli" := Ecoli,
    "parkinsons" := Parkinsons,
    "semeion" := Semeion,
    "statlog-segmentation" := StatlogSegmentation,
    "wilt" := Wilt,
    "zoo" := Zoo,
    "transformator" := Transformator,
    "turbine" := Turbine
  ]

  const NameToEstimator: map<string, Factory> := map[
    "svc" := Partial(SVC),
    "svr" := Partial(SVR),
    "xgbclassifier" := Partial(XGBClassifier),
    "xgbregressor" := Partial(XGBRegressor),
    "mlpclassifier" := Class(MLPClassifier),
    "mlpregressor" := Class(MLPRegressor)
  ]

  /** The class a factory builds: a partial's wrapped function, else the factory itself. */
  function Unwrap(f: Factory): EstimatorClass
  {
    match f
    case Partial(c) => c
    case Class(c) => c
  }

  /** Every declared space has distinct names, ordered bounds, a positive
      lower bound when log-scaled, a known numeric type and non-empty choices. */
  lemma SpaceTableWellFormed()
    ensures forall c :: c in MethodToHyperparams ==> WellFormedSpace(MethodToHyperparams[c])
  {
  }

  /** The space table has an entry for every estimator class, so the lookup
      in `__post_init__` never raises. */
  lemma EveryClassHasSpace()
    ensures forall c: EstimatorClass :: c in MethodToHyperparams
  {
    forall c: EstimatorClass ensures c in MethodToHyperparams {
      match c
      case SVC => assert MethodToHyperparams[SVC] == SvcSpace;
      case SVR => assert MethodToHyperparams[SVR] == SvrSpace;
      case XGBClassifier => assert MethodToHyperparams[XGBClassifier] == XgbClassifierSpace;
      case XGBRegressor => assert MethodToHyperparams[XGBRegressor] == XgbRegressorSpace;
      case MLPClassifier => assert MethodToHyperparams[MLPClassifier] == MlpClassifierSpace;
      case MLPRegressor => assert MethodToHyperparams[MLPRegressor] == MlpRegressorSpace;
    }
  }

  /** Every registered factory, once unwrapped, has a declared space. */
  lemma EveryEstimatorHasSpace()
    ensures forall name :: name in NameToEstimator ==> Unwrap(NameToEstimator[name]) in MethodToHyperparams
  {
  }

  /** `get_estimator`: a checked lookup in the estimator registry. */
  function GetEstimator(name: string): (r: Result<Factory, ArgError>)
    ensures r.Ok? <==> name in NameToEstimator
    ensures r.Ok? ==> r.value == NameToEstimator[name] && Unwrap(r.value) in MethodToHyperparams
    ensures r.Err? ==> r.error == UnsupportedEstimator(name)
  {
    if name in NameToEstimator then
      EveryEstimatorHasSpace();
      Ok(NameToEstimator[name])
    else Err(UnsupportedEstimator(name))
  }

  /** `get_datasets`: looks every name up in order, failing on the first one
      that is not registered. */
  method GetDatasets(names: seq<string>) returns (r: Result<seq<DatasetClass>, ArgError>)
    ensures r.Ok? <==> forall i :: 0 <= i < |names| ==> names[i] in NameToDataset
    ensures r.Ok? ==> |r.value| == |names|
    ensures r.Ok? ==> forall i :: 0 <= i < |names| ==> r.value[i] == NameToDataset[names[i]]
    ensures r.Err? ==> exists k :: FirstUnknownDataset(names, k) && r.error == UnsupportedDataset(names[k])
  {
    var result: seq<DatasetClass> := [];
    var i := 0;
    while i < |names|
      invariant 0 <= i <= |names|
      invariant |result| == i
      invariant forall j :: 0 <= j < i ==> names[j] in NameToDataset && result[j] == NameToDataset[names[j]]
    {
      var x := names[i];
      if x !in NameToDataset {
        assert FirstUnknownDataset(names, i);
        return Err(UnsupportedDataset(x));
      }
      result := result + [NameToDataset[x]];
      i := i + 1;
    }
    return Ok(result);
  }

  /** `names[k]` is the first name missing from the dataset registry. */
  predicate FirstUnknownDataset(names: seq<string>, k: int)
  {
    0 <= k < |names| && names[k] !in NameToDataset &&
    forall j :: 0 <= j < k ==> names[j] in NameToDataset
  }

  /** The assertions on the parsed numbers, checked in the source's order. */
  function ValidateArguments(maxIter: int, trials: int, nJobs: int): (r: Result<(), ArgError>)
    ensures r.Ok? <==> maxIter > 0 && trials > 0 && nJobs > 0
    ensures maxIter <= 0 ==> r == Err(AssertionFailed("Max iter must be positive"))
    ensures maxIter > 0 && trials <= 0 ==> r == Err(AssertionFailed("Trials must be positive"))
    ensures maxIter > 0 && trials > 0 && nJobs <= 0 ==> r == Err(AssertionFailed("n_jobs must be positive"))
  {
    if maxIter <= 0 then Err(AssertionFailed("Max iter must be positive"))
    else if trials <= 0 then Err(AssertionFailed("Trials must be positive"))
    else if nJobs <= 0 then Err(AssertionFailed("n_jobs must be positive"))
    else Ok(())
  }

  /** The namespace `argparse` produces for the six options. */
  datatype ParsedArgs = ParsedArgs(maxIter: int, dataset: seq<string>, methodName: string,
                                   dir: string, trials: int, nJobs: int)

  /** The run configuration; `hyperparams` is not an init argument but is
      filled in after initialisation from the estimator's class. */
  class ConsoleArgument {
    var maxIter: int
    var estimator: Factory
    var dataset: seq<DatasetClass>
    var hyperparams: Space
    var dir: string
    var trials: int
    var nJobs: int

    constructor (maxIter: int, estimator: Factory, dataset: seq<DatasetClass>,
                 dir: string, trials: int, nJobs: int)
      ensures this.maxIter == maxIter && this.estimator == estimator && this.dataset == dataset
      ensures this.dir == dir && this.trials == trials && this.nJobs == nJobs
      ensures Unwrap(estimator) in MethodToHyperparams
      ensures hyperparams == MethodToHyperparams[Unwrap(estimator)]
    {
      this.maxIter := maxIter;
      this.estimator := estimator;
      this.dataset := dataset;
      this.dir := dir;
      this.trials := trials;
      this.nJobs := nJobs;
      new;
      PostInit();
    }

    /** `__post_init__`: unwraps a partial to its class and takes that class's
        space from the table. */
    method PostInit()
      modifies this`hyperparams
      ensures Unwrap(estimator) in MethodToHyperparams
      ensures hyperparams == MethodToHyperparams[Unwrap(estimator)]
    {
      EveryClassHasSpace();
      var cls := if estimator.Partial? then estimator.func else estimator.cls;
      hyperparams := MethodToHyperparams[cls];
    }
  }

  /** What `parse_arguments` does once `argparse` has produced its namespace:
      the three assertions, then the estimator, then the datasets. */
  method ParseArguments(args: ParsedArgs) returns (r: Result<ConsoleArgument, ArgError>)
    ensures r.Ok? <==>
      ValidateArguments(args.maxIter, args.trials, args.nJobs).Ok? &&
      args.methodName in NameToEstimator &&
      forall i :: 0 <= i < |args.dataset| ==> args.dataset[i] in NameToDataset
    ensures ValidateArguments(args.maxIter, args.trials, args.nJobs).Err? ==>
      r.Err? && r.error == ValidateArguments(args.maxIter, args.trials, args.nJobs).error
    ensures ValidateArguments(args.maxIter, args.trials, args.nJobs).Ok? && args.methodName !in NameToEstimator ==>
      r.Err? && r.error == UnsupportedEstimator(args.methodName)
    ensures (ValidateArguments(args.maxIter, args.trials, args.nJobs).Ok? && args.methodName in NameToEstimator &&
             r.Err?) ==> exists k :: FirstUnknownDataset(args.dataset, k) && r.error == UnsupportedDataset(args.dataset[k])
    ensures r.Ok? ==> fresh(r.value)
    ensures r.Ok? ==> r.value.maxIter == args.maxIter > 0 && r.value.trials == args.trials > 0
    ensures r.Ok? ==> r.value.nJobs == args.nJobs > 0 && r.value.dir == args.dir
    ensures r.Ok? ==> r.value.estimator == NameToEstimator[args.methodName]
    ensures r.Ok? ==> r.value.hyperparams == MethodToHyperparams[Unwrap(NameToEstimator[args.methodName])]
    ensures r.Ok? ==> |r.value.dataset| == |args.dataset|
    ensures r.Ok? ==> forall i :: 0 <= i < |args.dataset| ==> r.value.dataset[i] == NameToDataset[args.dataset[i]]
  {
    var checked := ValidateArguments(args.maxIter, args.trials, args.nJobs);
    if checked.Err? {
      return Err(checked.error);
    }
    var estimator := GetEstimator(args.methodName);
    if estimator.Err? {
      return Err(estimator.error);
    }
    var datasets := GetDatasets(args.dataset);
    if datasets.Err? {
      return Err(datasets.error);
    }
    var argument := new ConsoleArgument(args.maxIter, estimator.value, datasets.value,
                                        args.dir, args.trials, args.nJobs);
    return Ok(argument);
  }
}
