# nlopt optimizer configuration (missSBM)

missSBM fits stochastic block models with a variational EM algorithm. When
the model has covariates, its M-step runs a gradient-based optimizer from the
nlopt library. `src/nlopt_wrapper.cpp` creates that optimizer from a
configuration list coming from R. This project models that wrapper:

- **Algorithm naming.** A fixed table pairs ten names with ten nlopt
  algorithms (LBFGS_NOCEDAL, LBFGS, VAR1, VAR2, TNEWTON, TNEWTON_RESTART,
  TNEWTON_PRECOND, TNEWTON_PRECOND_RESTART, MMA, CCSAQ). `algorithm_from_name`
  scans the table and returns the first entry with the given name. Otherwise
  it raises `Unsupported algorithm name: "<name>"\nSupported:`, followed by
  a space and a name for each table entry, in table order.
- **Optimizer creation.** `new_nlopt_optimizer` resolves the algorithm name
  before it calls `nlopt_create`. A null handle raises `nlopt_create`. It then
  checks six optional keys in a fixed order: `xtol_rel`, `xtol_abs`,
  `ftol_abs`, `ftol_rel`, `maxeval`, `maxtime`. For each key that is present
  it calls that key's setter. The first setter that does not return success
  raises an error, and the function stops there. The error is the name of
  that key's setter. The one exception is `xtol_abs`: its block calls
  `nlopt_set_xtol_abs1` but raises "nlopt_set_xtol_abs"
  (src/nlopt_wrapper.cpp:64-65). `set_uniform_xtol_abs`, which makes the same
  call, raises "nlopt_set_xtol_abs1" (src/nlopt_wrapper.cpp:93-94).
- **Absolute tolerances.** `set_uniform_xtol_abs` gives every parameter the
  same tolerance. `set_per_value_xtol_abs` first checks that there is one
  tolerance per parameter, and only then calls the library.
- **Self test.** `cpp_test_nlopt` configures LBFGS with tolerance 1e-6 and
  checks that the algorithm and tolerances read back as configured.

Files and modules:

- `wrappers.dfy` (`Wrappers`): `Option`, `Result` and `Outcome`.
- `nlopt.dfy` (`Nlopt`): the parts of the library the wrapper uses. The
  handle is the class `Optimizer`, with one field per stopping criterion. A
  criterion that is `None` is still at the library default. A setter call is
  a `SetterCall` value. Whether the library accepts a call is decided by an
  oracle `accepts: SetterCall -> bool`, which every operation takes as a
  parameter.
- `algorithm_naming.dfy` (`AlgorithmNaming`): the table, the lookup loop
  and the error message. The loops of `algorithm_from_name` are written
  once over any table: the scan in `SelectFromTable`, the message in
  `UnsupportedMessageFor`. `AlgorithmFromName` runs them on the
  supported-algorithm table.
- `nlopt_wrapper.dfy` (`NloptWrapper`): applying the configuration, the two
  xtol_abs helpers and the self test. The configuration is a
  `map<string, ConfigValue>`. `Configure` is the value-level specification
  of `new_nlopt_optimizer`. The method `NewNloptOptimizer` follows the C++
  code step by step and is proved equal to `Configure`.

Two facts about the code shape the model:

- A configured `xtol_abs` is converted with `as<double>`, so it is one
  scalar. A per-parameter vector can be set only through
  `set_per_value_xtol_abs`.
- Every error is an exception that carries a message string. The model
  keeps the wrapper's own message strings; a failed Rcpp conversion is
  `Conversion(key)`.

## Model

| member | source | states |
|---|---|---|
| `AlgorithmNaming.Lookup` | src/nlopt_wrapper.cpp:29-34 | no result iff no table entry has the name; otherwise the result is the algorithm of the first entry with that name |
| `AlgorithmNaming.SelectReportsFirstMatch` | src/nlopt_wrapper.cpp:29-45 | states the contract of `Select`, the value-level algorithm_from_name over a table: it succeeds iff some entry carries the name, and then yields the algorithm of the first such entry; otherwise it raises the head naming the name, followed by the table's name list |
| `AlgorithmNaming.UnsupportedMessageFor` | src/nlopt_wrapper.cpp:36-43 | the message built entry by entry is the head naming the name, followed by a space and a name for each table entry |
| `AlgorithmNaming.SelectFromTable` | src/nlopt_wrapper.cpp:29-45 | over any table, the scan returns the paired algorithm of the first matching entry; otherwise the call raises the head naming the name, followed by the list of the table's names |
| `AlgorithmNaming.AlgorithmFromName` | src/nlopt_wrapper.cpp:29-45 | on the supported-algorithm table: the paired algorithm of the first entry with the name, or the unsupported-name message listing the whole table |
| `AlgorithmNaming.Resolve` | src/nlopt_wrapper.cpp:29-45 | a name that resolves on the supported-algorithm table is the resolved algorithm's own nlopt name |
| `AlgorithmNaming.NameListAppend` | src/nlopt_wrapper.cpp:40-43 | one loop step appends a space and the entry's name to the list |
| `AlgorithmNaming.SupportedNamesDistinct` | src/nlopt_wrapper.cpp:15-26 | the ten table names are pairwise distinct |
| `AlgorithmNaming.SupportedNamesSpaceFree` | src/nlopt_wrapper.cpp:15-26 | no table name contains a space |
| `AlgorithmNaming.LookupFindsEntry` | src/nlopt_wrapper.cpp:29-34 | when the names are distinct, every entry's name selects that entry's own algorithm |
| `AlgorithmNaming.SupportedNameSelectsPairedAlgorithm` | src/nlopt_wrapper.cpp:15-34 | each of the ten table names selects exactly the algorithm paired with it |
| `AlgorithmNaming.UnknownNameRaises` | src/nlopt_wrapper.cpp:35-44 | a name that is not in the table never selects an algorithm; it always raises the unsupported-name message |
| `AlgorithmNaming.SplitWord` | src/nlopt_wrapper.cpp:40-43 | splitting a space-free word followed by more text keeps the word whole as the first piece |
| `AlgorithmNaming.NameListSplitsBack` | src/nlopt_wrapper.cpp:40-43 | the built list, split at its spaces, gives back every name of the table once and in table order |
| `AlgorithmNaming.MessageListsNames` | src/nlopt_wrapper.cpp:36-43 | for any table of space-free names, the message starts with its head, and the rest splits back into the table's names, in order |
| `AlgorithmNaming.SupportedNamesInOrder` | src/nlopt_wrapper.cpp:15-26 | the table lists LBFGS_NOCEDAL, LBFGS, VAR1, VAR2, TNEWTON, TNEWTON_RESTART, TNEWTON_PRECOND, TNEWTON_PRECOND_RESTART, MMA and CCSAQ, in that order |
| `AlgorithmNaming.UnsupportedMessageListsTable` | src/nlopt_wrapper.cpp:36-43 | the message is the head naming the rejected name, then a list that splits back into exactly the ten table names, in order |
| `AlgorithmNaming.TableAgreesWithNameOf` | src/nlopt_wrapper.cpp:15-26 | every table row pairs an algorithm with its own nlopt name |
| `AlgorithmNaming.NameOfSelects` | src/nlopt_wrapper.cpp:15-34 | selecting by an algorithm's own name returns that algorithm |
| `AlgorithmNaming.SelectedNameIsNameOf` | src/nlopt_wrapper.cpp:15-34 | a name that selects an algorithm is that algorithm's own name, so no other spelling is accepted |
| `Nlopt.Defaults` | src/nlopt_wrapper.cpp:52 | a new handle has the requested algorithm and dimension, and every criterion is at the library default |
| `Nlopt.Applied` | src/nlopt_wrapper.cpp:57-104 | an accepted setter call stores its value in its own criterion (a uniform xtol_abs becomes one entry per parameter) and leaves every other criterion, the algorithm and the dimension unchanged |
| `Nlopt.Optimizer.Create` | src/nlopt_wrapper.cpp:52 | a created handle holds the default settings for its algorithm and size |
| `Nlopt.Optimizer.Set` | src/nlopt_wrapper.cpp:57-104 | success is the library's decision; on success the state is `Applied` to the call, otherwise it is unchanged |
| `NloptWrapper.TruncateTowardZero` | src/nlopt_wrapper.cpp:80 | converting a double maxeval to an integer truncates toward zero |
| `NloptWrapper.AsString` | src/nlopt_wrapper.cpp:51 | converting an entry to a string succeeds iff the key is present and holds text, and yields that text; otherwise the error names the key |
| `NloptWrapper.AsDouble` | src/nlopt_wrapper.cpp:58-85 | converting an entry to a double succeeds iff the key is present and holds a number; a double is kept and an integer is widened, and otherwise the error names the key |
| `NloptWrapper.AsInt` | src/nlopt_wrapper.cpp:80 | converting an entry to an int succeeds iff the key is present and holds a number; an integer is kept and a double is truncated toward zero, and otherwise the error names the key |
| `NloptWrapper.Rejection` | src/nlopt_wrapper.cpp:57-88 | one option block raises nothing iff its key is absent or its entry converts to a call the library accepts; a failed conversion raises the conversion error naming the key, and a rejected call raises the name of the block's setter |
| `NloptWrapper.CallFor` | src/nlopt_wrapper.cpp:57-88 | an entry converts iff its key is present and holds a number; the call then goes to the setter of its own criterion and carries the entry converted by `as<double>`, or by `as<int>` for maxeval; xtol_abs always asks for the uniform setter; a failed conversion names the key |
| `NloptWrapper.Step` | src/nlopt_wrapper.cpp:57-88 | one option block keeps the per-parameter tolerance well formed |
| `NloptWrapper.ApplyOptions` | src/nlopt_wrapper.cpp:57-88 | applying the option blocks in order keeps the per-parameter tolerance well formed |
| `NloptWrapper.Configure` | src/nlopt_wrapper.cpp:50-90 | a configured optimizer is well formed |
| `NloptWrapper.FirstRejection` | src/nlopt_wrapper.cpp:57-88 | no error iff no criterion is rejected; otherwise the error is that of the first rejected criterion |
| `NloptWrapper.ApplyOptionsFailsAtFirstRejection` | src/nlopt_wrapper.cpp:57-88 | applying the options fails iff some criterion is rejected, and the error is that of the first rejection in order |
| `NloptWrapper.ApplyOptionsSetsPresentKeys` | src/nlopt_wrapper.cpp:57-88 | on success, each criterion whose key is present holds what the call `CallFor` builds from its entry sets; every other criterion, the algorithm and the dimension are unchanged |
| `NloptWrapper.ConfigureUsesNamedAlgorithm` | src/nlopt_wrapper.cpp:50-55 | a configured optimizer was created, with the named algorithm and the requested size |
| `NloptWrapper.ConfigureSetsExactlyPresentKeys` | src/nlopt_wrapper.cpp:57-88 | each of the six criteria is set iff its key is present, to what the call `CallFor` builds from its entry sets; if absent it stays at the library default |
| `NloptWrapper.ConfiguredEntryReadsBack` | src/nlopt_wrapper.cpp:57-88 | set-then-get for any configuration: a criterion whose key is present reads back its entry converted by `as<double>` (by `as<int>` for maxeval), and xtol_abs reads back that scalar for every parameter |
| `NloptWrapper.ConfiguredCallTakesEffect` | src/nlopt_wrapper.cpp:57-88 | a criterion whose entry converts to a setter call reads back what that call sets |
| `NloptWrapper.ConfiguredXtolAbsIsUniform` | src/nlopt_wrapper.cpp:63-67 | a configured xtol_abs is one scalar given to every parameter |
| `NloptWrapper.ConfigureFailsAtFirstRejection` | src/nlopt_wrapper.cpp:57-88 | after creation, configuring fails iff a present criterion is rejected, with the error of the first one in the order xtol_rel, xtol_abs, ftol_abs, ftol_rel, maxeval, maxtime |
| `NloptWrapper.UnsupportedNameCreatesNothing` | src/nlopt_wrapper.cpp:51-52 | an unsupported name raises its message whatever the allocator and the setters would do, so nothing is created and no option is applied |
| `NloptWrapper.CreationFailureIsReported` | src/nlopt_wrapper.cpp:52-55 | when nlopt_create returns null, the call raises "nlopt_create" and no setter is consulted |
| `NloptWrapper.ApplyConfigured` | src/nlopt_wrapper.cpp:57-61 | one option block fails exactly as `Step` does, with the same error, and then leaves the handle unchanged; otherwise the handle holds the state `Step` computes |
| `NloptWrapper.ApplyConfiguredInOrder` | src/nlopt_wrapper.cpp:57-88 | the six option blocks, run in application order, fail exactly as `ApplyOptions` does, with the first failing block's error; otherwise the handle holds the state `ApplyOptions` computes |
| `NloptWrapper.NewNloptOptimizer` | src/nlopt_wrapper.cpp:50-90 | fails exactly when `Configure` fails, with the same error; otherwise it returns a new handle whose state is `Configure`'s result |
| `NloptWrapper.SetUniformXtolAbs` | src/nlopt_wrapper.cpp:92-96 | on success every parameter's absolute tolerance is the given value; on rejection it raises "nlopt_set_xtol_abs1" and the handle is unchanged |
| `NloptWrapper.SetPerValueXtolAbs` | src/nlopt_wrapper.cpp:97-104 | a vector of the wrong length raises the size-mismatch message before the handle is touched; otherwise it succeeds iff the library accepts, raises "nlopt_set_xtol_abs" if not, and on success stores the vector |
| `NloptWrapper.SelfTestCalls` | src/nlopt_wrapper.cpp:121-127 | each entry of the self test's list converts to its setter with the listed value; xtol_abs is absent |
| `NloptWrapper.SelfTestRejections` | src/nlopt_wrapper.cpp:121-127 | each entry of the self test's list is rejected iff the library rejects its setter call |
| `NloptWrapper.SelfTestConfigSucceedsIffAccepted` | src/nlopt_wrapper.cpp:121-133 | once created, the self test's configuration succeeds iff the library accepts its five setter calls |
| `NloptWrapper.SelfTestSelectsLbfgs` | src/nlopt_wrapper.cpp:121-136 | the self test's optimizer uses LBFGS and has one parameter |
| `NloptWrapper.SelfTestCriteriaReadBack` | src/nlopt_wrapper.cpp:121-139 | the self test's optimizer reads back epsilon for xtol_rel, ftol_abs and ftol_rel, 100 for maxeval and maxtime, and the default for xtol_abs |
| `NloptWrapper.SelfTestConfigReadsBack` | src/nlopt_wrapper.cpp:121-139 | set-then-get: the configured optimizer reads back LBFGS, and epsilon for xtol_rel, ftol_abs and ftol_rel |
| `NloptWrapper.CppTestNlopt` | src/nlopt_wrapper.cpp:110-139 | the set-then-get checks always pass when construction succeeds; the test raises iff creation fails or the library rejects one of its setter calls |

## Left out

- `src/SBM_bernoulli.cpp` (ELBO, E-steps, M-steps) and `src/utils.h`: these are floating-point numerics built on `log` and `exp`, and are not part of this model.
- The optimization run (`minimize_objective_on_parameters`) and the convergence checks of `cpp_test_nlopt` (src/nlopt_wrapper.cpp:141-149): they depend on the library's numerical iteration.
- nlopt's own rules for accepting a setter value are not modelled. They are the `accepts` oracle, which depends only on the call. A rejected call is assumed to leave the handle unchanged.
- Whether `nlopt_create` can allocate a handle is the `created` parameter.
- The values nlopt uses as defaults are not modelled. A criterion that was never set reads as `None`.
- Rcpp conversion (`as<std::string>`, `as<double>`, `as<int>`, a missing `algorithm` entry) is not modelled in detail. A failed conversion is `Conversion(key)`, without the Rcpp message text. Entries are single values; R vectors of other lengths, NA and logical values are not modelled.
- NloptWrapper.TruncateTowardZero: does not model R's NA result for doubles outside the 32-bit integer range, because integers are unbounded here.
- Doubles are modelled as reals, so NaN, infinities and rounding are not modelled.
- The size passed to `nlopt_create` is a `nat`. Narrowing `std::size_t` to nlopt's `unsigned` is not modelled.
- The `unique_ptr` that frees the handle when an exception is thrown is not modelled. On failure the model returns no handle.
- The parameter packer (`packing.h`) is not part of this model.
