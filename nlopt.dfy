/**
  The part of the nlopt library that the wrapper relies on: the gradient-based
  algorithms it names, the optimizer handle created by nlopt_create, and the
  setters for the stopping criteria. Whether a setter succeeds is decided by
  the library; the model receives that decision as an `Acceptance` oracle.
 */
module Nlopt {
  import opened Wrappers

  /** The ten gradient-based (LD) algorithms that the wrapper can select. */
  datatype Algorithm =
    | LdLbfgsNocedal
    | LdLbfgs
    | LdVar1
    | LdVar2
    | LdTnewton
    | LdTnewtonRestart
    | LdTnewtonPrecond
    | LdTnewtonPrecondRestart
    | LdMma
    | LdCcsaq

  /** The stopping criteria held by an optimizer handle. */
  datatype Criterion = XtolRel | XtolAbs | FtolAbs | FtolRel | MaxEval | MaxTime

  /** One call to an nlopt setter, with its argument. */
  datatype SetterCall =
    | SetXtolRel(tol: real)          // nlopt_set_xtol_rel
    | SetXtolAbs1(tol: real)         // nlopt_set_xtol_abs1: one value for every parameter
    | SetXtolAbs(tols: seq<real>)    // nlopt_set_xtol_abs: one value per parameter
    | SetFtolAbs(tol: real)          // nlopt_set_ftol_abs
    | SetFtolRel(tol: real)          // nlopt_set_ftol_rel
    | SetMaxEval(count: int)         // nlopt_set_maxeval
    | SetMaxTime(seconds: real)      // nlopt_set_maxtime

  /** The library's decision whether a setter call returns NLOPT_SUCCESS. */
  type Acceptance = SetterCall -> bool

  /** The value a criterion holds once it has been set. */
  datatype Stored = Scalar(x: real) | PerParameter(xs: seq<real>) | Count(n: int)

  /**
    The observable state of a handle. A criterion that is `None` is still at
    the library's default.
   */
  datatype Settings = Settings(
    algorithm: Algorithm,
    dimension: nat,
    xtolRel: Option<real>,
    xtolAbs: Option<seq<real>>,
    ftolAbs: Option<real>,
    ftolRel: Option<real>,
    maxEval: Option<int>,
    maxTime: Option<real>)

  /** A per-parameter tolerance always has one entry per optimized parameter. */
  predicate WellFormed(st: Settings) {
    st.xtolAbs.Some? ==> |st.xtolAbs.value| == st.dimension
  }

  /** A call the library can be given on a handle of this dimension. */
  predicate Admissible(st: Settings, call: SetterCall) {
    call.SetXtolAbs? ==> |call.tols| == st.dimension
  }

  /** The state of a freshly created handle. */
  function Defaults(algorithm: Algorithm, dimension: nat): (st: Settings)
    ensures WellFormed(st)
    ensures st.algorithm == algorithm && st.dimension == dimension
    ensures forall c :: Get(st, c) == None
  {
    Settings(algorithm, dimension, None, None, None, None, None, None)
  }

  /** The value criterion `c` holds in `st`, if it has been set. */
  function Get(st: Settings, c: Criterion): Option<Stored> {
    match c
    case XtolRel => if st.xtolRel.Some? then Some(Scalar(st.xtolRel.value)) else None
    case XtolAbs => if st.xtolAbs.Some? then Some(PerParameter(st.xtolAbs.value)) else None
    case FtolAbs => if st.ftolAbs.Some? then Some(Scalar(st.ftolAbs.value)) else None
    case FtolRel => if st.ftolRel.Some? then Some(Scalar(st.ftolRel.value)) else None
    case MaxEval => if st.maxEval.Some? then Some(Count(st.maxEval.value)) else None
    case MaxTime => if st.maxTime.Some? then Some(Scalar(st.maxTime.value)) else None
  }

  /** The criterion a setter call changes. */
  function Target(call: SetterCall): Criterion {
    match call
    case SetXtolRel(_) => XtolRel
    case SetXtolAbs1(_) => XtolAbs
    case SetXtolAbs(_) => XtolAbs
    case SetFtolAbs(_) => FtolAbs
    case SetFtolRel(_) => FtolRel
    case SetMaxEval(_) => MaxEval
    case SetMaxTime(_) => MaxTime
  }

  /** What a successful call stores; a uniform tolerance is copied to every parameter. */
  function Effect(call: SetterCall, dimension: nat): Stored {
    match call
    case SetXtolRel(t) => Scalar(t)
    case SetXtolAbs1(t) => PerParameter(Uniform(dimension, t))
    case SetXtolAbs(ts) => PerParameter(ts)
    case SetFtolAbs(t) => Scalar(t)
    case SetFtolRel(t) => Scalar(t)
    case SetMaxEval(n) => Count(n)
    case SetMaxTime(t) => Scalar(t)
  }

  function Uniform(n: nat, v: real): (r: seq<real>)
    ensures |r| == n
    ensures forall i :: 0 <= i < |r| ==> r[i] == v
  {
    seq(n, _ => v)
  }

  /** The state after the library has accepted `call`. */
  function Applied(st: Settings, call: SetterCall): (r: Settings)
    requires WellFormed(st) && Admissible(st, call)
    ensures WellFormed(r)
    ensures r.algorithm == st.algorithm && r.dimension == st.dimension
    ensures Get(r, Target(call)) == Some(Effect(call, st.dimension))
    ensures forall c :: c != Target(call) ==> Get(r, c) == Get(st, c)
  {
    match call
    case SetXtolRel(t) => st.(xtolRel := Some(t))
    case SetXtolAbs1(t) => st.(xtolAbs := Some(Uniform(st.dimension, t)))
    case SetXtolAbs(ts) => st.(xtolAbs := Some(ts))
    case SetFtolAbs(t) => st.(ftolAbs := Some(t))
    case SetFtolRel(t) => st.(ftolRel := Some(t))
    case SetMaxEval(n) => st.(maxEval := Some(n))
    case SetMaxTime(t) => st.(maxTime := Some(t))
  }

  /** An nlopt optimizer handle (nlopt_opt). */
  class Optimizer {
    const algorithm: Algorithm
    const dimension: nat
    var xtolRel: Option<real>
    var xtolAbs: Option<seq<real>>
    var ftolAbs: Option<real>
    var ftolRel: Option<real>
    var maxEval: Option<int>
    var maxTime: Option<real>

    function State(): (st: Settings)
      reads this
      ensures st.algorithm == algorithm && st.dimension == dimension
    {
      Settings(algorithm, dimension, xtolRel, xtolAbs, ftolAbs, ftolRel, maxEval, maxTime)
    }

    predicate Valid()
      reads this
    {
      WellFormed(State())
    }

    /** nlopt_create, in the case where it returns a handle. */
    constructor Create(algorithm: Algorithm, dimension: nat)
      ensures Valid()
      ensures State() == Defaults(algorithm, dimension)
    {
      this.algorithm := algorithm;
      this.dimension := dimension;
      xtolRel, xtolAbs, ftolAbs, ftolRel := None, None, None, None;
      maxEval, maxTime := None, None;
    }

    /** Calls one setter; `success` says whether it returned NLOPT_SUCCESS. */
    method Set(call: SetterCall, accepts: Acceptance) returns (success: bool)
      requires Valid() && Admissible(State(), call)
      modifies this
      ensures Valid()
      ensures success == accepts(call)
      ensures State() == if success then Applied(old(State()), call) else old(State())
    {
      success := accepts(call);
      if !success {
        return;
      }
      match call
      case SetXtolRel(t) => xtolRel := Some(t);
      case SetXtolAbs1(t) => xtolAbs := Some(Uniform(dimension, t));
      case SetXtolAbs(ts) => xtolAbs := Some(ts);
      case SetFtolAbs(t) => ftolAbs := Some(t);
      case SetFtolRel(t) => ftolRel := Some(t);
      case SetMaxEval(n) => maxEval := Some(n);
      case SetMaxTime(t) => maxTime := Some(t);
    }
  }
}
