# iOpt benchmark: Scikit-Optimize searcher and run configuration

This project models two pieces of the iOpt hyperparameter-optimisation benchmark in Dafny:

- **The Scikit-Optimize (skopt) searcher adapter.** It translates the benchmark's declarative hyperparameter space into skopt's native dimensions. A `Numerical` of type `'int'` becomes `Integer`, and one of type `'float'` becomes `Real`. The bounds are copied, and the prior is `'log-uniform'` for log-scaled parameters and `'uniform'` otherwise. A `Categorial` becomes `Categorical`. The adapter then drives `gp_minimize` for `max_iter` calls of an objective. Each call records one Point and hands the minimiser the negated metric value.
- **The benchmark's configuration layer.** This covers three registry tables: estimator class → hyperparameter space, name → dataset and name → estimator factory. It also covers the checked lookups `get_estimator` and `get_datasets`, `ConsoleArgument.__post_init__`, which fills in the hyperparameter space from the estimator's class, and the positivity assertions on `max_iter`, `trials` and `n_jobs`.

Files:

- `wrappers.dfy` holds `Result`, the outcome of an operation that may raise.
- `hyperparams.dfy` holds `Numerical`/`Categorial` as a two-case datatype and a space as an insertion-ordered sequence of `(name, hyperparameter)` pairs. It also holds the well-formedness predicates.
- `skoptimize.dfy` holds the native dimensions, the encoding and the `SkoptSearcher`. It also has the `Objective` class, which stands for the closure together with the `points` list it appends to, and `Run`, the sequence of points that `gp_minimize` leaves behind.
- `argparser.dfy` holds the three tables, `GetEstimator`, `GetDatasets`, `ValidateArguments`, the `ConsoleArgument` class, and `ParseArguments`, which models what happens after `argparse` has produced its namespace.

Two external pieces are parameters of the model:

- The Gaussian-process minimiser is `ask: (dimensions, values returned so far) -> assignment`. It chooses the next assignment from the space and from the values it has been returned so far. Its randomness and its seed are folded into that function.
- `_calculate_metric` is `metric: assignment -> Point`.

## Model

| member | source | states |
|---|---|---|
| `Skoptimize.EncodeDimension` | benchmarks/frameworks/skoptimize.py:30-39 | Encoding fails with a `KeyError` on the type string exactly when a `Numerical`'s type is neither `'int'` nor `'float'`. Otherwise the dimension carries the parameter's name. `'int'` gives an `Integer` and `'float'` gives a `Real`. The bounds are `min_value`/`max_value` unchanged. The prior is log-uniform if and only if `is_log_scale` is set. A `Categorial` always gives a `Categorical` with the same values in the same order. |
| `Skoptimize.EncodeSpace` | benchmarks/frameworks/skoptimize.py:28-41 | The encoded space succeeds if and only if every entry's type is known. On success it has exactly one dimension per entry, in insertion order, and dimension i is the encoding of entry i. On failure the error is the `KeyError` of the first unknown type. |
| `Skoptimize.SkoptSearcher.GetHyperparamSpace` | benchmarks/frameworks/skoptimize.py:28-41 | The append loop returns exactly the encoded space, or the error of the first unencodable entry. |
| `Skoptimize.WellFormedSpaceEncodes` | benchmarks/frameworks/skoptimize.py:33-40 | For a space with distinct names, ordered bounds, a positive log-scale minimum and known types, encoding never fails. It yields dimensions with `low < high`, a positive `low` on every log-uniform axis, and pairwise distinct names. |
| `Skoptimize.Run` | benchmarks/frameworks/skoptimize.py:22-23 | After `n` objective calls, exactly `n` points have been recorded. |
| `Skoptimize.RunPrefix` | benchmarks/frameworks/skoptimize.py:17-19 | Later calls only append: the first `m` recorded points are the same after any later number of calls. |
| `Skoptimize.RunPointAt` | benchmarks/frameworks/skoptimize.py:16-22 | The k-th recorded point is the metric of the k-th assignment the minimiser proposed. That proposal was made after seeing exactly the negated values of the k earlier points. |
| `Skoptimize.Objective.constructor` | benchmarks/frameworks/skoptimize.py:14-17 | The objective starts with an empty `points` list and the given metric. |
| `Skoptimize.Objective.Call` | benchmarks/frameworks/skoptimize.py:17-20 | One call appends exactly one point, `metric(params)`, to the end of `points` and changes nothing earlier. It returns the negation of that point's value. |
| `Skoptimize.SkoptSearcher.GetPoints` | benchmarks/frameworks/skoptimize.py:12-23 | If the space cannot be encoded, the encoding error propagates. Otherwise the result is the points of `max_iter` objective calls, in call order, so its length is `max_iter`. The minimiser is fed the negated values of the points. |
| `Skoptimize.SkoptSearcher.GetSearcherParams` | benchmarks/frameworks/skoptimize.py:25-26 | The searcher passes no extra parameters. |
| `ArgParser.SpaceTableWellFormed` | benchmarks/argparser.py:13-52 | Every space in the table has distinct names and a known numeric type. Every `Numerical` in it has `min_value < max_value`, and a positive `min_value` when log-scaled. Every `Categorial` has at least one choice. |
| `ArgParser.EveryClassHasSpace` | benchmarks/argparser.py:97-101 | Every estimator class is a key of the space table, so the `__post_init__` lookup never raises. |
| `ArgParser.EveryEstimatorHasSpace` | benchmarks/argparser.py:74-84 | Every registered factory, once unwrapped from its `partial`, is a key of the space table. |
| `ArgParser.GetEstimator` | benchmarks/argparser.py:104-108 | A known name returns its registered factory, whose class has a space. Any other name raises `ValueError` naming it. |
| `ArgParser.GetDatasets` | benchmarks/argparser.py:111-118 | Succeeds if and only if every name is registered. On success the list has the same length as `names`, and element i is the dataset registered under `names[i]`. On failure the `ValueError` names the first unknown name in list order. |
| `ArgParser.ValidateArguments` | benchmarks/argparser.py:142-144 | The arguments are accepted exactly when `max_iter`, `trials` and `n_jobs` are all positive. Otherwise the first failing assertion, in that order, is reported with its message. |
| `ArgParser.ConsoleArgument.PostInit` | benchmarks/argparser.py:97-101 | `hyperparams` becomes the space of the estimator's class, after unwrapping a `partial`. No other field changes. |
| `ArgParser.ConsoleArgument.constructor` | benchmarks/argparser.py:87-101 | The six init fields are stored as given, and `hyperparams` is the space of the unwrapped estimator class. |
| `ArgParser.ParseArguments` | benchmarks/argparser.py:142-149 | Succeeds exactly when the three assertions hold, the method name is registered and every dataset name is registered. Errors are reported in the source's order: assertions, then estimator, then datasets. A dataset error names the first unknown dataset. On success a new configuration holds the validated numbers, the registered factory, that factory's class's space and the looked-up datasets in order. |

## Left out

- Command-line parsing with `argparse` (benchmarks/argparser.py:133-141) is not modelled. `ParseArguments` takes the parsed namespace as a parameter. A missing `--max-iter` or `--dataset` gives `None` in Python and a `TypeError` later; the model takes those values as present.
- skopt's `gp_minimize` and `use_named_args` are foreign floating-point code. The minimiser is the `ask` parameter, and the model assumes it calls the objective exactly `n_calls` times. skopt's own argument checks, such as a minimum number of calls relative to its initial random points, are not modelled.
- `Skoptimize.SkoptSearcher.GetPoints`: the proposed assignments are not constrained to lie inside the encoded space, because that is the foreign minimiser's promise.
- `_calculate_metric`, the `Searcher` and `Point` base classes and estimator fitting and scoring are not modelled. frameworks/interface.py is not part of this model. The metric is the `metric` parameter, and `Point` is modelled as an assignment with a real value.
- The objective has no exception handling in the source, so the model does not skip failed trials.
- The keyword arguments bound by `partial` (`max_iter=1000`, `n_jobs=1`) are not modelled. A factory is either a class or a partial over a class.
- Dataset classes are opaque tokens. The `'turbine'` entry refers to `data.Turbine`, which benchmarks/data/__init__.py does not export. No property here depends on that entry.
- `SkoptSearcher` holds `max_iter`, `is_deterministic` and the bound space as values. The base class that binds the space is not part of this model.
- iOpt/problems/paraboloid.py is a floating-point toy objective and is not modelled.
