/**
 * The central model server: a process-wide single instance that owns the ensemble and
 * turns its averaged prediction into the diagnosis response, with optional Monte Carlo
 * dropout uncertainty on the first member and the benchmark comparison.  Image decoding
 * is outside the model: `Predict` receives the preprocessed tensor's shape.
 */
module ModelServer {
  import opened Wrappers
  import Stats
  import Ensemble
  import McDropout
  import ClinicalBenchmarks

  const ClassNames: seq<string> := [
    "01_NORMAL_LUNG",
    "02_NORMAL_BONE",
    "03_NORMAL_PNEUMONIA",
    "04_LUNG_CANCER",
    "05_FRACTURED",
    "06_PNEUMONIA"
  ]

  /** The only candidate member file, under backend/models. */
  const CandidatePaths: seq<string> := ["backend/models/medical_model_final.keras"]

  const NotInitializedMessage := "ModelServer not initialized: no ensemble models loaded."

  datatype EnsembleInfo = EnsembleInfo(modelCount: nat, variance: seq<real>, individualPredictions: seq<seq<real>>)

  datatype Uncertainty = Uncertainty(entropy: real, epistemicVariance: seq<real>, meanProbability: seq<real>)

  datatype Response =
    | ErrorResponse(error: string)
    | Report(
        diagnosis: string,
        confidence: real,
        probabilities: seq<(string, real)>,
        ensemble: EnsembleInfo,
        uncertainty: Option<Uncertainty>,
        benchmarkComparison: Option<string>)

  /** Exceptions that escape `predict`. */
  datatype ServerError =
    | EnsembleFailed(cause: Ensemble.PredictError)
    | EmptyProbabilities    // np.argmax of an empty vector

  function Min(a: nat, b: nat): nat { if a <= b then a else b }

  /** `xs[:n]` */
  function Truncate<T>(xs: seq<T>, n: nat): (r: seq<T>)
    ensures |r| == Min(n, |xs|)
    ensures forall i :: 0 <= i < |r| ==> r[i] == xs[i]
  {
    xs[..Min(n, |xs|)]
  }

  /** `{cls: p for cls, p in zip(names, probs)}`, in label order. */
  function Zip(names: seq<string>, probs: seq<real>): (r: seq<(string, real)>)
    requires |names| == |probs|
    ensures |r| == |names|
    ensures forall i :: 0 <= i < |r| ==> r[i] == (names[i], probs[i])
  {
    seq(|names|, i requires 0 <= i < |names| => (names[i], probs[i]))
  }

  /** The response built from an ensemble result, before the optional keys are added. */
  function BaseReport(p: Ensemble.Prediction): (r: Result<Response, ServerError>)
    ensures r.Failure? <==> p.meanProbability == []
    ensures r.Failure? ==> r.error == EmptyProbabilities
    ensures r.Success? ==>
      var n := Min(|ClassNames|, |p.meanProbability|);
      var k := Stats.ArgMax(p.meanProbability[..n]);
      r.value.Report? &&
      r.value.diagnosis == ClassNames[k] && r.value.confidence == p.meanProbability[k] &&
      (forall j :: 0 <= j < n ==> p.meanProbability[j] <= r.value.confidence) &&
      |r.value.probabilities| == n &&
      (forall i :: 0 <= i < n ==> r.value.probabilities[i] == (ClassNames[i], p.meanProbability[i])) &&
      r.value.ensemble.modelCount == p.modelCount &&
      r.value.ensemble.variance == Truncate(p.variance, n) &&
      |r.value.ensemble.individualPredictions| == |p.individualPredictions| &&
      (forall i :: 0 <= i < |p.individualPredictions| ==>
        r.value.ensemble.individualPredictions[i] == Truncate(p.individualPredictions[i], n)) &&
      r.value.uncertainty.None? && r.value.benchmarkComparison.None?
  {
    var n := Min(|ClassNames|, |p.meanProbability|);
    var probs := p.meanProbability[..n];
    if probs == [] then Failure(EmptyProbabilities)
    else
      var k := Stats.ArgMax(probs);
      Success(Report(
        ClassNames[k], probs[k], Zip(ClassNames[..n], probs),
        EnsembleInfo(p.modelCount, Truncate(p.variance, n),
          seq(|p.individualPredictions|, i requires 0 <= i < |p.individualPredictions| =>
            Truncate(p.individualPredictions[i], n))),
        None, None))
  }

  /** The `uncertainty` entry for an MC dropout outcome: absent when the call raised. */
  function UncertaintyEntry(mc: Result<McDropout.McResult, McDropout.McError>, n: nat): (u: Option<Uncertainty>)
    ensures u.Some? <==> mc.Success?
    ensures u.Some? ==> (u.value.entropy == mc.value.entropy
      && u.value.meanProbability == Truncate(mc.value.meanProbability, n)
      && u.value.epistemicVariance == Truncate(mc.value.uncertaintyVariance, n))
  {
    match mc
    case Failure(_) => None
    case Success(m) => Some(Uncertainty(m.entropy, Truncate(m.uncertaintyVariance, n), Truncate(m.meanProbability, n)))
  }

  class Server {
    var initialized: bool
    var ensemble: Ensemble.MedicalEnsemble?

    predicate Valid()
      reads this, ensemble
    {
      ensemble != null ==> ensemble.Valid()
    }

    /** `__new__` on the first call: a fresh instance not yet initialised. */
    constructor ()
      ensures !initialized && ensemble == null
    {
      initialized := false;
      ensemble := null;
    }

    /**
     * `_initialize`: with the ML dependencies importable, build the ensemble from the
     * candidate files that exist; any failure leaves the server without an ensemble.
     */
    method Initialize(depsAvailable: bool, loader: Ensemble.Loader)
      modifies this
      ensures initialized == old(initialized)
      ensures Valid()
      ensures ensemble != null <==>
        depsAvailable && Ensemble.Loaded(ExistingCandidates(loader), loader) != []
      ensures ensemble != null ==> (fresh(ensemble)
        && ensemble.models == Ensemble.Loaded(ExistingCandidates(loader), loader))
    {
      if !depsAvailable {
        ensemble := null;
        return;
      }
      var validPaths := ExistingCandidates(loader);
      if validPaths == [] {
        ensemble := null;
        return;
      }
      var created := Ensemble.MedicalEnsemble.Create(validPaths, loader);
      match created
      case Failure(_) =>
        ensemble := null;
      case Success(e) =>
        ensemble := e;
    }

    /**
     * `predict(image_bytes, run_uncertainty)` on a preprocessed tensor `t`.  `run` gives each
     * member's output, `pass` the dropout passes of the first member, `ln` the logarithm.
     */
    method Predict(t: Ensemble.Tensor, run: Ensemble.Model -> Option<seq<real>>, runUncertainty: bool,
                   pass: nat -> Option<seq<real>>, ln: real -> real)
      returns (r: Result<Response, ServerError>)
      requires Valid()
      ensures ensemble == null ==> r == Success(ErrorResponse(NotInitializedMessage))
      ensures ensemble != null && !Ensemble.IsSingleImageBatch(t) ==>
        r == Failure(EnsembleFailed(Ensemble.BadInputShape))
      ensures ensemble != null && Ensemble.IsSingleImageBatch(t) ==>
        match Ensemble.Summarise(Ensemble.Successful(ensemble.models, run), |ensemble.models|)
        case Failure(e) => r == Failure(EnsembleFailed(e))
        case Success(p) =>
          match BaseReport(p)
          case Failure(e) => r == Failure(e)
          case Success(base) =>
            var n := Min(|ClassNames|, |p.meanProbability|);
            r == Success(base.(
              uncertainty := if runUncertainty
                then UncertaintyEntry(McDropout.Outcome(t, pass, McDropout.DefaultIterations, ln), n)
                else None,
              benchmarkComparison := Some(ClinicalBenchmarks.CompareScore(base.diagnosis, base.confidence))))
    {
      if ensemble == null {
        return Success(ErrorResponse(NotInitializedMessage));
      }
      var pred := ensemble.Predict(t, run);
      if pred.Failure? {
        return Failure(EnsembleFailed(pred.error));
      }
      var n := Min(|ClassNames|, |pred.value.meanProbability|);
      var base := BaseReport(pred.value);
      if base.Failure? {
        return Failure(base.error);
      }
      var response := base.value;
      if runUncertainty && |ensemble.models| > 0 {
        var mc := McDropout.PredictWithUncertainty(t, pass, McDropout.DefaultIterations, ln);
        if mc.Success? {
          response := response.(uncertainty := UncertaintyEntry(mc, n));
        }
      }
      var benchMsg := ClinicalBenchmarks.CompareScore(response.diagnosis, response.confidence);
      response := response.(benchmarkComparison := Some(benchMsg));
      return Success(response);
    }
  }

  /** `[p for p in candidate_paths if os.path.exists(p)]` */
  function ExistingCandidates(loader: Ensemble.Loader): (ps: seq<string>)
    ensures forall p :: p in ps <==> p in CandidatePaths && loader.pathExists(p)
  {
    if loader.pathExists(CandidatePaths[0]) then CandidatePaths else []
  }

  /** The class-level `_instance` slot through which every construction goes. */
  class Registry {
    var instance: Server?

    constructor ()
      ensures instance == null
    {
      instance := null;
    }

    /**
     * `ModelServer()`: the first call creates and initialises the single instance; every
     * later call returns that same instance and leaves it as it was.
     */
    method Obtain(depsAvailable: bool, loader: Ensemble.Loader) returns (s: Server)
      requires instance != null ==> instance.Valid()
      modifies this, instance
      ensures instance == s && s.initialized && s.Valid()
      ensures old(instance) != null ==> s == old(instance)
      ensures old(instance) != null && old(instance.initialized) ==>
        s.ensemble == old(instance.ensemble)
      ensures old(instance) == null ==> (fresh(s)
        && (s.ensemble != null <==> depsAvailable && Ensemble.Loaded(ExistingCandidates(loader), loader) != []))
    {
      if instance == null {
        instance := new Server();
      }
      s := instance;
      if !s.initialized {
        s.ensemble := null;
        s.Initialize(depsAvailable, loader);
        s.initialized := true;
      }
    }
  }
}
