/**
  Creating and configuring an nlopt optimizer from a configuration list:
  the algorithm is selected by name before the optimizer is created, then
  each of six optional stopping criteria is applied, in a fixed order, when
  its key is present; the first setter that fails aborts the whole call.
 */
module NloptWrapper {
  import opened Wrappers
  import opened Nlopt
  import opened AlgorithmNaming

  /** One entry of the configuration list. */
  datatype ConfigValue = Text(s: string) | Double(x: real) | Integer(n: int)

  /** The configuration list, by entry name. */
  type Config = map<string, ConfigValue>

  /** The order in which the configured criteria are applied. */
  const ApplicationOrder: seq<Criterion> := [XtolRel, XtolAbs, FtolAbs, FtolRel, MaxEval, MaxTime]

  /** The configuration key of each criterion. */
  function KeyName(c: Criterion): string {
    match c
    case XtolRel => "xtol_rel"
    case XtolAbs => "xtol_abs"
    case FtolAbs => "ftol_abs"
    case FtolRel => "ftol_rel"
    case MaxEval => "maxeval"
    case MaxTime => "maxtime"
  }

  /** The message raised when the setter for a configured criterion fails. */
  function SetterName(c: Criterion): string {
    match c
    case XtolRel => "nlopt_set_xtol_rel"
    case XtolAbs => "nlopt_set_xtol_abs"
    case FtolAbs => "nlopt_set_ftol_abs"
    case FtolRel => "nlopt_set_ftol_rel"
    case MaxEval => "nlopt_set_maxeval"
    case MaxTime => "nlopt_set_maxtime"
  }

  /** Conversion of an entry to a string. */
  function AsString(config: Config, key: string): (r: Result<string, Error>)
    ensures r.Success? <==> key in config && config[key].Text?
    ensures r.Success? ==> config[key] == Text(r.value)
    ensures r.Failure? ==> r.error == Conversion(key)
  {
    if key in config && config[key].Text? then Success(config[key].s) else Failure(Conversion(key))
  }

  /** Conversion of an entry to a double; an integer converts exactly. */
  function AsDouble(config: Config, key: string): (r: Result<real, Error>)
    ensures r.Success? <==> key in config && !config[key].Text?
    ensures r.Success? && config[key].Double? ==> r.value == config[key].x
    ensures r.Success? && config[key].Integer? ==> r.value == config[key].n as real
    ensures r.Failure? ==> r.error == Conversion(key)
  {
    if key !in config then Failure(Conversion(key))
    else match config[key]
      case Double(x) => Success(x)
      case Integer(n) => Success(n as real)
      case Text(_) => Failure(Conversion(key))
  }

  /** Conversion of an entry to an integer; a double is truncated toward zero. */
  function AsInt(config: Config, key: string): (r: Result<int, Error>)
    ensures r.Success? <==> key in config && !config[key].Text?
    ensures r.Success? && config[key].Integer? ==> r.value == config[key].n
    ensures r.Success? && config[key].Double? ==> r.value == TruncateTowardZero(config[key].x)
    ensures r.Failure? ==> r.error == Conversion(key)
  {
    if key !in config then Failure(Conversion(key))
    else match config[key]
      case Double(x) => Success(TruncateTowardZero(x))
      case Integer(n) => Success(n)
      case Text(_) => Failure(Conversion(key))
  }

  function TruncateTowardZero(x: real): (n: int)
    ensures 0.0 <= x ==> n as real <= x < n as real + 1.0
    ensures x < 0.0 ==> n as real - 1.0 < x <= n as real
  {
    if x >= 0.0 then x.Floor else -((-x).Floor)
  }

  /** The setter call a present key asks for, carrying the entry's converted value. xtol_abs is a single value for every parameter. */
  function CallFor(config: Config, c: Criterion): (r: Result<SetterCall, Error>)
    ensures r.Success? <==> KeyName(c) in config && !config[KeyName(c)].Text?
    ensures r.Success? ==> Target(r.value) == c && !r.value.SetXtolAbs?
    ensures r.Success? && c == MaxEval ==> r.value == SetMaxEval(AsInt(config, KeyName(c)).value)
    ensures r.Success? && c == XtolAbs ==> r.value == SetXtolAbs1(AsDouble(config, KeyName(c)).value)
    ensures r.Success? && c != MaxEval && c != XtolAbs ==>
      Effect(r.value, 0) == Scalar(AsDouble(config, KeyName(c)).value)
    ensures r.Failure? ==> r.error == Conversion(KeyName(c))
  {
    match c
    case XtolRel => var x :- AsDouble(config, "xtol_rel"); Success(SetXtolRel(x))
    case XtolAbs => var x :- AsDouble(config, "xtol_abs"); Success(SetXtolAbs1(x))
    case FtolAbs => var x :- AsDouble(config, "ftol_abs"); Success(SetFtolAbs(x))
    case FtolRel => var x :- AsDouble(config, "ftol_rel"); Success(SetFtolRel(x))
    case MaxEval => var n :- AsInt(config, "maxeval"); Success(SetMaxEval(n))
    case MaxTime => var x :- AsDouble(config, "maxtime"); Success(SetMaxTime(x))
  }

  /** The error that handling criterion `c` raises, if any: a failed conversion or a failed setter. */
  function Rejection(config: Config, c: Criterion, accepts: Acceptance): (r: Option<Error>)
    ensures r.None? <==> KeyName(c) !in config || (CallFor(config, c).Success? && accepts(CallFor(config, c).value))
    ensures r.Some? && CallFor(config, c).Failure? ==> r.value == Conversion(KeyName(c))
    ensures r.Some? && CallFor(config, c).Success? ==> r.value == Exception(SetterName(c))
  {
    if KeyName(c) !in config then None
    else match CallFor(config, c)
      case Failure(e) => Some(e)
      case Success(call) => if accepts(call) then None else Some(Exception(SetterName(c)))
  }

  /** Handling one criterion: nothing when its key is absent, else its setter is called. */
  function Step(st: Settings, config: Config, c: Criterion, accepts: Acceptance): (r: Result<Settings, Error>)
    requires WellFormed(st)
    ensures r.Success? ==> WellFormed(r.value)
  {
    match Rejection(config, c, accepts)
    case Some(e) => Failure(e)
    case None =>
      if KeyName(c) in config then Success(Applied(st, CallFor(config, c).value)) else Success(st)
  }

  /** Handling the criteria in `order`, stopping at the first error. */
  function ApplyOptions(st: Settings, config: Config, order: seq<Criterion>, accepts: Acceptance): (r: Result<Settings, Error>)
    requires WellFormed(st)
    ensures r.Success? ==> WellFormed(r.value)
    decreases |order|
  {
    if order == [] then Success(st)
    else
      var next :- Step(st, config, order[0], accepts);
      ApplyOptions(next, config, order[1..], accepts)
  }

  /**
    new_nlopt_optimizer: the optimizer configured by `config` for `size`
    parameters. `created` says whether nlopt_create returns a handle.
   */
  function Configure(config: Config, size: nat, accepts: Acceptance, created: bool): (r: Result<Settings, Error>)
    ensures r.Success? ==> WellFormed(r.value)
  {
    var name :- AsString(config, "algorithm");
    var algorithm :- Resolve(name);
    if !created then Failure(Exception("nlopt_create"))
    else ApplyOptions(Defaults(algorithm, size), config, ApplicationOrder, accepts)
  }

  /** The first error among the criteria of `order`. */
  function FirstRejection(config: Config, order: seq<Criterion>, accepts: Acceptance): (r: Option<Error>)
    ensures r.None? <==> forall i :: 0 <= i < |order| ==> Rejection(config, order[i], accepts).None?
    ensures r.Some? ==> exists i :: (0 <= i < |order| && Rejection(config, order[i], accepts) == r &&
      forall j :: 0 <= j < i ==> Rejection(config, order[j], accepts).None?)
  {
    if order == [] then None
    else if Rejection(config, order[0], accepts).Some? then Rejection(config, order[0], accepts)
    else
      var r := FirstRejection(config, order[1..], accepts);
      assert forall i :: 1 <= i < |order| ==> order[1..][i - 1] == order[i];
      r
  }

  /** Applying the criteria fails exactly when one of them is rejected, with the first rejection's error. */
  lemma {:induction false} ApplyOptionsFailsAtFirstRejection(st: Settings, config: Config, order: seq<Criterion>, accepts: Acceptance)
    requires WellFormed(st)
    ensures ApplyOptions(st, config, order, accepts).Failure? <==> FirstRejection(config, order, accepts).Some?
    ensures ApplyOptions(st, config, order, accepts).Failure? ==>
      ApplyOptions(st, config, order, accepts).error == FirstRejection(config, order, accepts).value
    decreases |order|
  {
    if order != [] {
      var step := Step(st, config, order[0], accepts);
      if step.Success? {
        ApplyOptionsFailsAtFirstRejection(step.value, config, order[1..], accepts);
      }
    }
  }

  /** When applying succeeds, a criterion is set iff its key is present, to the value it asks for; the rest keep their value. */
  lemma {:induction false} ApplyOptionsSetsPresentKeys(st: Settings, config: Config, order: seq<Criterion>, accepts: Acceptance, c: Criterion)
    requires WellFormed(st) && ApplyOptions(st, config, order, accepts).Success?
    ensures ApplyOptions(st, config, order, accepts).value.algorithm == st.algorithm
    ensures ApplyOptions(st, config, order, accepts).value.dimension == st.dimension
    ensures c in order && KeyName(c) in config ==> (CallFor(config, c).Success? &&
      Get(ApplyOptions(st, config, order, accepts).value, c) == Some(Effect(CallFor(config, c).value, st.dimension)))
    ensures !(c in order && KeyName(c) in config) ==>
      Get(ApplyOptions(st, config, order, accepts).value, c) == Get(st, c)
    decreases |order|
  {
    if order != [] {
      var next := Step(st, config, order[0], accepts).value;
      ApplyOptionsSetsPresentKeys(next, config, order[1..], accepts, c);
    }
  }

  /** A configured optimizer uses the named algorithm and the given size. */
  lemma ConfigureUsesNamedAlgorithm(config: Config, size: nat, accepts: Acceptance, created: bool)
    requires Configure(config, size, accepts, created).Success?
    ensures AsString(config, "algorithm").Success? && created
    ensures Resolve(AsString(config, "algorithm").value).Success?
    ensures Configure(config, size, accepts, created).value.algorithm == Resolve(AsString(config, "algorithm").value).value
    ensures Configure(config, size, accepts, created).value.dimension == size
  {
    var algorithm := Resolve(AsString(config, "algorithm").value).value;
    ApplyOptionsSetsPresentKeys(Defaults(algorithm, size), config, ApplicationOrder, accepts, XtolRel);
  }

  /**
    In a configured optimizer each criterion is set iff its key is present
    (else it keeps the library default), to the value its entry converts to.
   */
  lemma ConfigureSetsExactlyPresentKeys(config: Config, size: nat, accepts: Acceptance, created: bool, c: Criterion)
    requires Configure(config, size, accepts, created).Success?
    ensures Get(Configure(config, size, accepts, created).value, c).Some? <==> KeyName(c) in config
    ensures KeyName(c) in config ==> (CallFor(config, c).Success? &&
      Get(Configure(config, size, accepts, created).value, c) == Some(Effect(CallFor(config, c).value, size)))
  {
    var algorithm := Resolve(AsString(config, "algorithm").value).value;
    assert c in ApplicationOrder;
    ApplyOptionsSetsPresentKeys(Defaults(algorithm, size), config, ApplicationOrder, accepts, c);
  }

  /**
    Set-then-get for any configuration: a criterion whose key is present reads
    back its entry converted by `as<double>`, or by `as<int>` for maxeval;
    xtol_abs reads back that scalar for every parameter.
  */
  lemma ConfiguredEntryReadsBack(config: Config, size: nat, accepts: Acceptance, created: bool, c: Criterion)
    requires Configure(config, size, accepts, created).Success? && KeyName(c) in config
    ensures c == MaxEval ==> (AsInt(config, KeyName(c)).Success? &&
      Get(Configure(config, size, accepts, created).value, c) == Some(Count(AsInt(config, KeyName(c)).value)))
    ensures c == XtolAbs ==> (AsDouble(config, KeyName(c)).Success? &&
      Get(Configure(config, size, accepts, created).value, c) == Some(PerParameter(Uniform(size, AsDouble(config, KeyName(c)).value))))
    ensures c != MaxEval && c != XtolAbs ==> (AsDouble(config, KeyName(c)).Success? &&
      Get(Configure(config, size, accepts, created).value, c) == Some(Scalar(AsDouble(config, KeyName(c)).value)))
  {
    ConfigureSetsExactlyPresentKeys(config, size, accepts, created, c);
  }

  /** A criterion whose entry converts to `call` reads back what `call` sets. */
  lemma ConfiguredCallTakesEffect(config: Config, size: nat, accepts: Acceptance, created: bool, c: Criterion, call: SetterCall)
    requires Configure(config, size, accepts, created).Success? && CallFor(config, c) == Success(call)
    ensures Get(Configure(config, size, accepts, created).value, c) == Some(Effect(call, size))
  {
    ConfigureSetsExactlyPresentKeys(config, size, accepts, created, c);
  }

  /** A configured xtol_abs is one scalar copied to every parameter, as set_uniform_xtol_abs does. */
  lemma ConfiguredXtolAbsIsUniform(config: Config, size: nat, accepts: Acceptance, created: bool)
    requires Configure(config, size, accepts, created).Success? && "xtol_abs" in config
    ensures AsDouble(config, "xtol_abs").Success?
    ensures Configure(config, size, accepts, created).value.xtolAbs == Some(Uniform(size, AsDouble(config, "xtol_abs").value))
  {
    ConfigureUsesNamedAlgorithm(config, size, accepts, created);
    ConfigureSetsExactlyPresentKeys(config, size, accepts, created, XtolAbs);
  }

  /**
    Once the optimizer exists, configuring fails exactly when some present
    criterion is rejected, and it fails with the error of the first such
    criterion in application order.
   */
  lemma ConfigureFailsAtFirstRejection(config: Config, size: nat, accepts: Acceptance, created: bool)
    requires AsString(config, "algorithm").Success? && Resolve(AsString(config, "algorithm").value).Success?
    requires created
    ensures Configure(config, size, accepts, created).Failure? <==> FirstRejection(config, ApplicationOrder, accepts).Some?
    ensures Configure(config, size, accepts, created).Failure? ==>
      Configure(config, size, accepts, created).error == FirstRejection(config, ApplicationOrder, accepts).value
  {
    var algorithm := Resolve(AsString(config, "algorithm").value).value;
    ApplyOptionsFailsAtFirstRejection(Defaults(algorithm, size), config, ApplicationOrder, accepts);
  }

  /**
    An unsupported name is reported before anything is created: the result
    does not depend on the allocator or on any setter.
   */
  lemma UnsupportedNameCreatesNothing(config: Config, size: nat, accepts: Acceptance, created: bool, name: string)
    requires AsString(config, "algorithm") == Success(name)
    requires forall i :: 0 <= i < |SupportedAlgorithms| ==> SupportedAlgorithms[i].name != name
    ensures Configure(config, size, accepts, created) == Failure(Exception(UnsupportedMessage(name)))
  {
  }

  /** When nlopt_create returns no handle, the call fails with "nlopt_create" and no setter is consulted. */
  lemma CreationFailureIsReported(config: Config, size: nat, accepts: Acceptance)
    requires AsString(config, "algorithm").Success? && Resolve(AsString(config, "algorithm").value).Success?
    ensures Configure(config, size, accepts, false) == Failure(Exception("nlopt_create"))
  {
  }

  /** Handling the criteria from position k on is handling criterion k, then the rest. */
  lemma ApplyOptionsFrom(st: Settings, config: Config, k: nat, accepts: Acceptance)
    requires WellFormed(st) && k < |ApplicationOrder|
    ensures Step(st, config, ApplicationOrder[k], accepts).Failure? ==>
      ApplyOptions(st, config, ApplicationOrder[k..], accepts) == Failure(Step(st, config, ApplicationOrder[k], accepts).error)
    ensures Step(st, config, ApplicationOrder[k], accepts).Success? ==>
      ApplyOptions(st, config, ApplicationOrder[k..], accepts) ==
      ApplyOptions(Step(st, config, ApplicationOrder[k], accepts).value, config, ApplicationOrder[k + 1..], accepts)
  {
    assert ApplicationOrder[k..][0] == ApplicationOrder[k];
    assert ApplicationOrder[k..][1..] == ApplicationOrder[k + 1..];
  }

  /** One `if(config.containsElementNamed(key))` block of new_nlopt_optimizer. */
  method ApplyConfigured(opt: Optimizer, config: Config, c: Criterion, accepts: Acceptance) returns (r: Outcome<Error>)
    requires opt.Valid()
    modifies opt
    ensures opt.Valid()
    ensures r.Fail? <==> Step(old(opt.State()), config, c, accepts).Failure?
    ensures r.Fail? ==> r.error == Step(old(opt.State()), config, c, accepts).error
    ensures r.Fail? ==> opt.State() == old(opt.State())
    ensures r.Pass? ==> opt.State() == Step(old(opt.State()), config, c, accepts).value
  {
    if KeyName(c) in config {
      var call := CallFor(config, c);
      if call.Failure? {
        return Fail(call.error);
      }
      var success := opt.Set(call.value, accepts);
      if !success {
        return Fail(Exception(SetterName(c)));
      }
    }
    return Pass;
  }

  /** The six option blocks of new_nlopt_optimizer, in application order; the first failing block raises. */
  method ApplyConfiguredInOrder(opt: Optimizer, config: Config, accepts: Acceptance) returns (r: Outcome<Error>)
    requires opt.Valid()
    modifies opt
    ensures opt.Valid()
    ensures r.Fail? <==> ApplyOptions(old(opt.State()), config, ApplicationOrder, accepts).Failure?
    ensures r.Fail? ==> r.error == ApplyOptions(old(opt.State()), config, ApplicationOrder, accepts).error
    ensures r.Pass? ==> opt.State() == ApplyOptions(old(opt.State()), config, ApplicationOrder, accepts).value
  {
    ghost var spec := ApplyOptions(opt.State(), config, ApplicationOrder, accepts);
    assert ApplicationOrder[0..] == ApplicationOrder;
    ApplyOptionsFrom(opt.State(), config, 0, accepts);
    r := ApplyConfigured(opt, config, XtolRel, accepts);
    if r.Fail? {
      return;
    }
    assert spec == ApplyOptions(opt.State(), config, ApplicationOrder[1..], accepts);
    ApplyOptionsFrom(opt.State(), config, 1, accepts);
    r := ApplyConfigured(opt, config, XtolAbs, accepts);
    if r.Fail? {
      return;
    }
    assert spec == ApplyOptions(opt.State(), config, ApplicationOrder[2..], accepts);
    ApplyOptionsFrom(opt.State(), config, 2, accepts);
    r := ApplyConfigured(opt, config, FtolAbs, accepts);
    if r.Fail? {
      return;
    }
    assert spec == ApplyOptions(opt.State(), config, ApplicationOrder[3..], accepts);
    ApplyOptionsFrom(opt.State(), config, 3, accepts);
    r := ApplyConfigured(opt, config, FtolRel, accepts);
    if r.Fail? {
      return;
    }
    assert spec == ApplyOptions(opt.State(), config, ApplicationOrder[4..], accepts);
    ApplyOptionsFrom(opt.State(), config, 4, accepts);
    r := ApplyConfigured(opt, config, MaxEval, accepts);
    if r.Fail? {
      return;
    }
    assert spec == ApplyOptions(opt.State(), config, ApplicationOrder[5..], accepts);
    ApplyOptionsFrom(opt.State(), config, 5, accepts);
    r := ApplyConfigured(opt, config, MaxTime, accepts);
    if r.Fail? {
      return;
    }
    assert spec == ApplyOptions(opt.State(), config, ApplicationOrder[6..], accepts);
  }

  /** new_nlopt_optimizer: selects the algorithm, creates the optimizer, then applies the configured criteria in order. */
  method NewNloptOptimizer(config: Config, size: nat, accepts: Acceptance, created: bool) returns (r: Result<Optimizer, Error>)
    ensures r.Failure? <==> Configure(config, size, accepts, created).Failure?
    ensures r.Failure? ==> r.error == Configure(config, size, accepts, created).error
    ensures r.Success? ==> (fresh(r.value) && r.value.Valid() &&
      r.value.State() == Configure(config, size, accepts, created).value)
  {
    var name :- AsString(config, "algorithm");
    var algorithm :- AlgorithmFromName(name);
    if !created {
      return Failure(Exception("nlopt_create"));
    }
    var opt := new Optimizer.Create(algorithm, size);
    var outcome := ApplyConfiguredInOrder(opt, config, accepts);
    if outcome.Fail? {
      return Failure(outcome.error);
    }
    return Success(opt);
  }

  /** set_uniform_xtol_abs: one absolute tolerance for every parameter. */
  method SetUniformXtolAbs(opt: Optimizer, value: real, accepts: Acceptance) returns (r: Outcome<Error>)
    requires opt.Valid()
    modifies opt
    ensures opt.Valid()
    ensures r.Pass? <==> accepts(SetXtolAbs1(value))
    ensures r.Fail? ==> r.error == Exception("nlopt_set_xtol_abs1") && opt.State() == old(opt.State())
    ensures r.Pass? ==> opt.State() == old(opt.State()).(xtolAbs := Some(Uniform(opt.dimension, value)))
  {
    var success := opt.Set(SetXtolAbs1(value), accepts);
    if !success {
      return Fail(Exception("nlopt_set_xtol_abs1"));
    }
    return Pass;
  }

  /** set_per_value_xtol_abs: one absolute tolerance per parameter, after checking the count. */
  method SetPerValueXtolAbs(opt: Optimizer, xtolAbs: seq<real>, accepts: Acceptance) returns (r: Outcome<Error>)
    requires opt.Valid()
    modifies opt
    ensures opt.Valid()
    ensures |xtolAbs| != opt.dimension ==>
      r == Fail(Exception("set_per_value_xtol_abs: parameter size mismatch")) && opt.State() == old(opt.State())
    ensures |xtolAbs| == opt.dimension ==> (r.Pass? <==> accepts(SetXtolAbs(xtolAbs)))
    ensures |xtolAbs| == opt.dimension && r.Fail? ==>
      r.error == Exception("nlopt_set_xtol_abs") && opt.State() == old(opt.State())
    ensures r.Pass? ==> opt.State() == old(opt.State()).(xtolAbs := Some(xtolAbs))
  {
    if |xtolAbs| != opt.dimension {
      return Fail(Exception("set_per_value_xtol_abs: parameter size mismatch"));
    }
    var success := opt.Set(SetXtolAbs(xtolAbs), accepts);
    if !success {
      return Fail(Exception("nlopt_set_xtol_abs"));
    }
    return Pass;
  }

  /** The tolerance used by the self test. */
  const Epsilon: real := 0.000001

  /** The configuration list built by cpp_test_nlopt. */
  const SelfTestConfig: Config := map[
    "algorithm" := Text("LBFGS"),
    "xtol_rel" := Double(Epsilon),
    "ftol_abs" := Double(Epsilon),
    "ftol_rel" := Double(Epsilon),
    "maxeval" := Integer(100),
    "maxtime" := Double(100.0)
  ]

  /** The library accepts every setter call the self test configures. */
  predicate AcceptsSelfTestConfig(accepts: Acceptance) {
    && accepts(SetXtolRel(Epsilon))
    && accepts(SetFtolAbs(Epsilon))
    && accepts(SetFtolRel(Epsilon))
    && accepts(SetMaxEval(100))
    && accepts(SetMaxTime(100.0))
  }

  /** The entries of the self test's list, stated one by one. */
  predicate SelfTestEntries(config: Config) {
    && "algorithm" in config && config["algorithm"] == Text("LBFGS")
    && "xtol_rel" in config && config["xtol_rel"] == Double(Epsilon)
    && "xtol_abs" !in config
    && "ftol_abs" in config && config["ftol_abs"] == Double(Epsilon)
    && "ftol_rel" in config && config["ftol_rel"] == Double(Epsilon)
    && "maxeval" in config && config["maxeval"] == Integer(100)
    && "maxtime" in config && config["maxtime"] == Double(100.0)
  }

  /** The self test's list selects LBFGS; once created, configuring it fails iff one of its setters is rejected. */
  lemma SelfTestConfigSucceedsIffAccepted(config: Config, accepts: Acceptance)
    requires SelfTestEntries(config)
    ensures Configure(config, 1, accepts, true).Success? <==> AcceptsSelfTestConfig(accepts)
  {
    if AcceptsSelfTestConfig(accepts) {
      SelfTestConfigSucceedsIfAccepted(config, accepts);
    } else {
      SelfTestConfigFailsIfRejected(config, accepts);
    }
  }

  lemma SelfTestConfigSucceedsIfAccepted(config: Config, accepts: Acceptance)
    requires SelfTestEntries(config) && AcceptsSelfTestConfig(accepts)
    ensures Configure(config, 1, accepts, true).Success?
  {
    SelfTestResolves(config);
    ConfigureFailsAtFirstRejection(config, 1, accepts, true);
    SelfTestFirstRejection(config, accepts);
  }

  lemma SelfTestConfigFailsIfRejected(config: Config, accepts: Acceptance)
    requires SelfTestEntries(config) && !AcceptsSelfTestConfig(accepts)
    ensures Configure(config, 1, accepts, true).Failure?
  {
    SelfTestResolves(config);
    ConfigureFailsAtFirstRejection(config, 1, accepts, true);
    SelfTestFirstRejection(config, accepts);
  }

  lemma SelfTestResolves(config: Config)
    requires SelfTestEntries(config)
    ensures AsString(config, "algorithm") == Success("LBFGS")
    ensures Resolve("LBFGS") == Success(LdLbfgs)
  {
    SupportedNameSelectsPairedAlgorithm(1);
  }

  /** Handling the self test's list in application order rejects nothing iff the library accepts its five calls. */
  lemma SelfTestFirstRejection(config: Config, accepts: Acceptance)
    requires SelfTestEntries(config)
    ensures FirstRejection(config, ApplicationOrder, accepts).None? <==> AcceptsSelfTestConfig(accepts)
  {
    SelfTestRejections(config, accepts);
    var order := ApplicationOrder;
    if AcceptsSelfTestConfig(accepts) {
      assert forall i :: 0 <= i < |order| ==> Rejection(config, order[i], accepts).None?;
    } else if !accepts(SetXtolRel(Epsilon)) {
      assert Rejection(config, order[0], accepts).Some?;
    } else if !accepts(SetFtolAbs(Epsilon)) {
      assert Rejection(config, order[2], accepts).Some?;
    } else if !accepts(SetFtolRel(Epsilon)) {
      assert Rejection(config, order[3], accepts).Some?;
    } else if !accepts(SetMaxEval(100)) {
      assert Rejection(config, order[4], accepts).Some?;
    } else {
      assert Rejection(config, order[5], accepts).Some?;
    }
  }

  /**
    Set-then-get: once the self test's list is configured, the optimizer
    reads back LBFGS and the tolerances and limits of the list; xtol_abs,
    absent from the list, stays at the library default.
   */
  lemma SelfTestConfigReadsBack(config: Config, accepts: Acceptance)
    requires SelfTestEntries(config)
    requires Configure(config, 1, accepts, true).Success?
    ensures var st := Configure(config, 1, accepts, true).value;
      && st.algorithm == LdLbfgs && st.dimension == 1
      && st.xtolRel == Some(Epsilon) && st.ftolAbs == Some(Epsilon) && st.ftolRel == Some(Epsilon)
      && st.maxEval == Some(100) && st.maxTime == Some(100.0) && st.xtolAbs == None
  {
    SelfTestSelectsLbfgs(config, accepts);
    SelfTestCriteriaReadBack(config, accepts);
  }

  lemma SelfTestSelectsLbfgs(config: Config, accepts: Acceptance)
    requires SelfTestEntries(config)
    requires Configure(config, 1, accepts, true).Success?
    ensures Configure(config, 1, accepts, true).value.algorithm == LdLbfgs
    ensures Configure(config, 1, accepts, true).value.dimension == 1
  {
    assert AsString(config, "algorithm") == Success("LBFGS");
    assert Resolve("LBFGS") == Success(LdLbfgs) by {
      SupportedNameSelectsPairedAlgorithm(1);
    }
    ConfigureUsesNamedAlgorithm(config, 1, accepts, true);
  }

  lemma SelfTestCriteriaReadBack(config: Config, accepts: Acceptance)
    requires SelfTestEntries(config)
    requires Configure(config, 1, accepts, true).Success?
    ensures var st := Configure(config, 1, accepts, true).value;
      && st.xtolRel == Some(Epsilon) && st.ftolAbs == Some(Epsilon) && st.ftolRel == Some(Epsilon)
      && st.maxEval == Some(100) && st.maxTime == Some(100.0) && st.xtolAbs == None
  {
    var st := Configure(config, 1, accepts, true).value;
    SelfTestCalls(config);
    ConfigureSetsExactlyPresentKeys(config, 1, accepts, true, XtolAbs);
    ConfiguredCallTakesEffect(config, 1, accepts, true, XtolRel, SetXtolRel(Epsilon));
    ReadsXtolRel(st, Epsilon);
    ConfiguredCallTakesEffect(config, 1, accepts, true, FtolAbs, SetFtolAbs(Epsilon));
    ReadsFtolAbs(st, Epsilon);
    ConfiguredCallTakesEffect(config, 1, accepts, true, FtolRel, SetFtolRel(Epsilon));
    ReadsFtolRel(st, Epsilon);
    ConfiguredCallTakesEffect(config, 1, accepts, true, MaxEval, SetMaxEval(100));
    ReadsMaxEval(st, 100);
    ConfiguredCallTakesEffect(config, 1, accepts, true, MaxTime, SetMaxTime(100.0));
    ReadsMaxTime(st, 100.0);
  }

  lemma ReadsXtolRel(st: Settings, tol: real)
    requires Get(st, XtolRel) == Some(Effect(SetXtolRel(tol), st.dimension))
    ensures st.xtolRel == Some(tol)
  {
  }

  lemma ReadsFtolAbs(st: Settings, tol: real)
    requires Get(st, FtolAbs) == Some(Effect(SetFtolAbs(tol), st.dimension))
    ensures st.ftolAbs == Some(tol)
  {
  }

  lemma ReadsFtolRel(st: Settings, tol: real)
    requires Get(st, FtolRel) == Some(Effect(SetFtolRel(tol), st.dimension))
    ensures st.ftolRel == Some(tol)
  {
  }

  lemma ReadsMaxEval(st: Settings, count: int)
    requires Get(st, MaxEval) == Some(Effect(SetMaxEval(count), st.dimension))
    ensures st.maxEval == Some(count)
  {
  }

  lemma ReadsMaxTime(st: Settings, seconds: real)
    requires Get(st, MaxTime) == Some(Effect(SetMaxTime(seconds), st.dimension))
    ensures st.maxTime == Some(seconds)
  {
  }

  /** What handling each criterion of the self test's list raises. */
  lemma SelfTestRejections(config: Config, accepts: Acceptance)
    requires SelfTestEntries(config)
    ensures Rejection(config, XtolRel, accepts).None? <==> accepts(SetXtolRel(Epsilon))
    ensures Rejection(config, XtolAbs, accepts).None?
    ensures Rejection(config, FtolAbs, accepts).None? <==> accepts(SetFtolAbs(Epsilon))
    ensures Rejection(config, FtolRel, accepts).None? <==> accepts(SetFtolRel(Epsilon))
    ensures Rejection(config, MaxEval, accepts).None? <==> accepts(SetMaxEval(100))
    ensures Rejection(config, MaxTime, accepts).None? <==> accepts(SetMaxTime(100.0))
  {
    SelfTestCalls(config);
  }

  /** The setter call each entry of the self test's list converts to. */
  lemma SelfTestCalls(config: Config)
    requires SelfTestEntries(config)
    ensures CallFor(config, XtolRel) == Success(SetXtolRel(Epsilon))
    ensures KeyName(XtolAbs) !in config
    ensures CallFor(config, FtolAbs) == Success(SetFtolAbs(Epsilon))
    ensures CallFor(config, FtolRel) == Success(SetFtolRel(Epsilon))
    ensures CallFor(config, MaxEval) == Success(SetMaxEval(100))
    ensures CallFor(config, MaxTime) == Success(SetMaxTime(100.0))
  {
  }

  lemma SelfTestConfigHasEntries()
    ensures SelfTestEntries(SelfTestConfig)
  {
  }

  /**
    cpp_test_nlopt, up to the optimization run: builds the configuration,
    creates the optimizer, sets a uniform xtol_abs and checks that the
    algorithm and tolerances read back as configured. A call that raises
    yields its error; otherwise the result says whether every check held.
   */
  method CppTestNlopt(accepts: Acceptance, created: bool) returns (r: Result<bool, Error>)
    ensures r.Success? <==> created && AcceptsSelfTestConfig(accepts) && accepts(SetXtolAbs1(Epsilon))
    ensures r.Success? ==> r.value
  {
    var success := true;
    var config := SelfTestConfig;
    if "xtol_rel" !in config {
      success := false;
    }
    SelfTestConfigHasEntries();
    ghost var configured := created && AcceptsSelfTestConfig(accepts);
    assert Configure(config, 1, accepts, created).Success? <==> configured by {
      if created {
        SelfTestConfigSucceedsIffAccepted(config, accepts);
      }
    }
    var optimizer :- NewNloptOptimizer(config, 1, accepts, created);
    SelfTestConfigReadsBack(config, accepts);
    var outcome := SetUniformXtolAbs(optimizer, Epsilon, accepts);
    if outcome.Fail? {
      return Failure(outcome.error);
    }
    if optimizer.algorithm != LdLbfgs {
      success := false;
    }
    if optimizer.ftolAbs != Some(Epsilon) {
      success := false;
    }
    if optimizer.ftolRel != Some(Epsilon) {
      success := false;
    }
    if optimizer.xtolRel != Some(Epsilon) {
      success := false;
    }
    return Success(success);
  }
}
