/** The parameter-space closures `run_mcmc` hands to MultiNest and zeus: the
    unit-cube prior transform, the zeus bounds check, the likelihood and the
    zeus posterior. Arithmetic is on exact reals; the simulator (building model
    data, then scoring it) is a function parameter that may raise.
 */
module Closures {
  import opened Wrappers
  import opened Chain

  /** A log-probability: negative infinity, or a finite value. */
  datatype LogProb = NegInf | Finite(x: real)

  /** Exceptions the simulator can raise; only ParameterError is absorbed. */
  datatype ModelError = ParameterError | OtherError(kind: string)

  /** Named parameter values, as `Params(*zip(keys, p))` builds them. */
  type NamedPoint = seq<(string, real)>

  /** `chain.computeLikelihoods(chain.build_model_data(...))`. */
  type Model = NamedPoint -> Result<real, ModelError>

  /** Python's `zip(keys, p)`: pairs by position, stopping at the shorter one. */
  function Zip(keys: seq<string>, p: seq<real>): (r: NamedPoint)
    ensures |r| == if |keys| <= |p| then |keys| else |p|
    ensures forall i :: 0 <= i < |r| ==> r[i] == (keys[i], p[i])
    decreases |keys|
  {
    if keys == [] || p == [] then []
    else [(keys[0], p[0])] + Zip(keys[1..], p[1..])
  }

  /** Coordinates beyond the last key never reach the simulator. */
  lemma {:induction false} ZipIgnoresExtraCoordinates(keys: seq<string>, p: seq<real>, extra: seq<real>)
    requires |keys| <= |p|
    ensures Zip(keys, p + extra) == Zip(keys, p)
    decreases |keys|
  {
    if keys != [] {
      assert (p + extra)[1..] == p[1..] + extra;
      ZipIgnoresExtraCoordinates(keys[1..], p[1..], extra);
    }
  }

  /** The likelihood closure (the same for MultiNest and zeus): name the
      coordinates by position with the parameter keys, run the simulator, and
      turn a ParameterError into negative infinity; other errors propagate. */
  function Likelihood(params: ParamSet, p: seq<real>, model: Model): (r: Result<LogProb, ModelError>)
    ensures r == Success(NegInf) <==> model(Zip(params.Keys(), p)) == Failure(ParameterError)
    ensures r.Failure? <==> model(Zip(params.Keys(), p)).Failure? && model(Zip(params.Keys(), p)).error != ParameterError
    ensures model(Zip(params.Keys(), p)).Success? ==> r == Success(Finite(model(Zip(params.Keys(), p)).value))
    ensures r.Failure? ==> r.error == model(Zip(params.Keys(), p)).error
  {
    match model(Zip(params.Keys(), p))
    case Success(v) => Success(Finite(v))
    case Failure(e) => if e == ParameterError then Success(NegInf) else Failure(e)
  }

  /** The likelihood depends on the first `|params|` coordinates only. */
  lemma LikelihoodIgnoresExtraCoordinates(params: ParamSet, p: seq<real>, extra: seq<real>, model: Model)
    requires |params.entries| <= |p|
    ensures Likelihood(params, p + extra, model) == Likelihood(params, p, model)
  {
    ZipIgnoresExtraCoordinates(params.Keys(), p, extra);
  }

  // ---------------------------------------------------------------- MultiNest prior

  /** The affine image of a unit-cube coordinate in a parameter's range. */
  function FromUnit(u: real, par: Parameter): real {
    par.min + u * (par.max - par.min)
  }

  /** The inverse map, for a non-degenerate range. */
  function ToUnit(x: real, par: Parameter): real
    requires par.min < par.max
  {
    (x - par.min) / (par.max - par.min)
  }

  /** A coordinate in [0, 1] lands in [min, max]; 0 goes to min and 1 to max. */
  lemma FromUnitInRange(u: real, par: Parameter)
    requires par.min <= par.max
    ensures 0.0 <= u <= 1.0 ==> par.min <= FromUnit(u, par) <= par.max
    ensures FromUnit(0.0, par) == par.min && FromUnit(1.0, par) == par.max
  {
    var w := par.max - par.min;
    assert 0.0 * w == 0.0 && 1.0 * w == w;
    if 0.0 <= u <= 1.0 {
      assert 0.0 <= u * w;
      assert w - u * w == (1.0 - u) * w;
      assert 0.0 <= (1.0 - u) * w;
    }
  }

  /** The transform is invertible on a non-degenerate range, both ways round. */
  lemma FromUnitRoundTrip(u: real, x: real, par: Parameter)
    requires par.min < par.max
    ensures ToUnit(FromUnit(u, par), par) == u
    ensures FromUnit(ToUnit(x, par), par) == x
  {
    var w := par.max - par.min;
    assert FromUnit(u, par) - par.min == u * w;
    assert (u * w) / w == u;
    var t := (x - par.min) / w;
    assert t * w == x - par.min;
    assert FromUnit(t, par) == par.min + t * w;
  }

  /** The MultiNest prior: coordinates `0 .. ndim-1` are rewritten in place to
      their image in the parameter's range; the others are left alone. */
  method MultiNestPrior(p: seq<real>, params: ParamSet, ndim: nat) returns (q: seq<real>)
    requires ndim <= |p| && ndim <= |params.entries|
    ensures |q| == |p|
    ensures forall i :: 0 <= i < ndim ==> q[i] == FromUnit(p[i], params.entries[i])
    ensures forall i :: ndim <= i < |p| ==> q[i] == p[i]
    ensures forall i :: 0 <= i < ndim && 0.0 <= p[i] <= 1.0 &&
                        params.entries[i].min <= params.entries[i].max ==>
              params.entries[i].min <= q[i] <= params.entries[i].max
  {
    q := p;
    var i := 0;
    while i < ndim
      invariant i <= ndim
      invariant |q| == |p|
      invariant forall j :: 0 <= j < i ==> q[j] == FromUnit(p[j], params.entries[j])
      invariant forall j :: i <= j < |p| ==> q[j] == p[j]
    {
      q := q[i := FromUnit(q[i], params.entries[i])];
      i := i + 1;
    }
    forall j | 0 <= j < ndim && 0.0 <= p[j] <= 1.0 && params.entries[j].min <= params.entries[j].max
      ensures params.entries[j].min <= q[j] <= params.entries[j].max
    {
      FromUnitInRange(p[j], params.entries[j]);
    }
  }

  // ---------------------------------------------------------------- zeus prior

  /** Strictly above the upper bound or strictly below the lower one. */
  predicate Outside(x: real, par: Parameter) {
    x > par.max || x < par.min
  }

  /** The zeus prior's loop from index `from` on: true as soon as some
      coordinate is outside its parameter's bounds. */
  function AnyOutsideFrom(p: seq<real>, params: ParamSet, from: nat): (r: bool)
    requires |p| <= |params.entries|
    ensures r <==> exists j :: from <= j < |p| && Outside(p[j], params.entries[j])
    decreases |p| - from
  {
    if from >= |p| then false
    else if Outside(p[from], params.entries[from]) then true
    else AnyOutsideFrom(p, params, from + 1)
  }

  /** The zeus prior: returns the point unchanged together with the "invalid"
      flag. */
  function ZeusPrior(p: seq<real>, params: ParamSet): (r: (seq<real>, bool))
    requires |p| <= |params.entries|
    ensures r.0 == p
    ensures r.1 <==> exists j :: 0 <= j < |p| && Outside(p[j], params.entries[j])
  {
    (p, AnyOutsideFrom(p, params, 0))
  }

  /** Boundary values are valid: a point inside the closed box is never flagged. */
  lemma ZeusPriorAcceptsClosedBox(p: seq<real>, params: ParamSet)
    requires |p| <= |params.entries|
    ensures !ZeusPrior(p, params).1 <==>
      forall j :: 0 <= j < |p| ==> params.entries[j].min <= p[j] <= params.entries[j].max
  {
  }

  /** The zeus posterior: negative infinity for a flagged point, otherwise the
      likelihood of the point. */
  function Posterior(params: ParamSet, p: seq<real>, model: Model): (r: Result<LogProb, ModelError>)
    requires |p| <= |params.entries|
    ensures ZeusPrior(p, params).1 ==> r == Success(NegInf)
    ensures !ZeusPrior(p, params).1 ==> r == Likelihood(params, p, model)
  {
    var (q, invalid) := ZeusPrior(p, params);
    if invalid then Success(NegInf) else Likelihood(params, q, model)
  }

  /** The posterior short-circuits: for a point outside the box its value does
      not depend on the simulator at all, so the simulator is never consulted. */
  lemma PosteriorShortCircuits(params: ParamSet, p: seq<real>, m1: Model, m2: Model, j: nat)
    requires |p| <= |params.entries|
    requires j < |p| && Outside(p[j], params.entries[j])
    ensures Posterior(params, p, m1) == Posterior(params, p, m2) == Success(NegInf)
  {
  }

  /** Inside the box the posterior is exactly the likelihood, so a ParameterError
      raised by the simulator still yields negative infinity and nothing else does. */
  lemma PosteriorInsideBox(params: ParamSet, p: seq<real>, model: Model)
    requires |p| <= |params.entries|
    requires forall j :: 0 <= j < |p| ==> params.entries[j].min <= p[j] <= params.entries[j].max
    ensures Posterior(params, p, model) == Likelihood(params, p, model)
    ensures Posterior(params, p, model) == Success(NegInf) <==>
      model(Zip(params.Keys(), p)) == Failure(ParameterError)
  {
    ZeusPriorAcceptsClosedBox(p, params);
  }
}
