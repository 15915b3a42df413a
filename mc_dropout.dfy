/**
 * Monte Carlo dropout: repeated stochastic forward passes of one model with dropout left
 * on, summarised by mean, variance and the entropy of the mean.  The passes are given by
 * `pass(k)`, the first output row of the k-th pass (None when the model raises); the
 * natural logarithm is the parameter `ln`.
 */
module McDropout {
  import opened Wrappers
  import Stats
  import Ensemble

  const DefaultIterations := 10
  /** Lower clip applied to the mean before taking logarithms. */
  const Epsilon: real := 0.000000000000001

  datatype McError =
    | TooFewIterations   // ValueError: num_iterations must be >= 2
    | BadInputShape      // ValueError on a tensor that is not (1, H, W, C)
    | PassFailed         // the model raised during a pass (propagated)
    | RaggedSamples      // passes returned vectors of different widths

  datatype McResult = McResult(
    meanProbability: seq<real>,
    uncertaintyVariance: seq<real>,
    entropy: real,
    samples: seq<seq<real>>)

  /** `np.clip(p, Epsilon, 1.0)`. */
  function Clip(p: real): (c: real)
    ensures Epsilon <= c <= 1.0
    ensures Epsilon <= p <= 1.0 ==> c == p
  {
    if p < Epsilon then Epsilon else if p > 1.0 then 1.0 else p
  }

  /** `-sum(c * ln c)` over the clipped entries of `m`. */
  function Entropy(m: seq<real>, ln: real -> real): real
  {
    if m == [] then 0.0
    else Entropy(m[..|m| - 1], ln) - Clip(m[|m| - 1]) * ln(Clip(m[|m| - 1]))
  }

  /**
   * With `n` equal entries `1/n` (a uniform distribution, `1/n >= Epsilon`), the entropy is
   * `|m|` times `-(1/n) ln(1/n)`; for `|m| == n` that is `-ln(1/n)` (UniformEntropyValue).
   */
  lemma {:induction false} UniformEntropy(m: seq<real>, n: nat, ln: real -> real)
    requires n > 0 && 1.0 / n as real >= Epsilon
    requires forall i :: 0 <= i < |m| ==> m[i] == 1.0 / n as real
    ensures Entropy(m, ln) == -(|m| as real) * (1.0 / n as real) * ln(1.0 / n as real)
  {
    if m != [] {
      UniformEntropy(m[..|m| - 1], n, ln);
    }
  }

  lemma UniformEntropyValue(m: seq<real>, ln: real -> real)
    requires |m| > 0 && 1.0 / |m| as real >= Epsilon
    requires forall i :: 0 <= i < |m| ==> m[i] == 1.0 / |m| as real
    ensures Entropy(m, ln) == -ln(1.0 / |m| as real)
  {
    UniformEntropy(m, |m|, ln);
    var n := |m| as real;
    assert n * (1.0 / n) == 1.0;
  }

  /** The samples collected by the first `k` passes. */
  function Samples(pass: nat -> Option<seq<real>>, k: nat): (r: Option<seq<seq<real>>>)
    ensures r.Some? ==> |r.value| == k
  {
    if k == 0 then Some([])
    else
      match Samples(pass, k - 1)
      case None => None
      case Some(prev) => if pass(k - 1).Some? then Some(prev + [pass(k - 1).value]) else None
  }

  /** When no pass fails, the k-th sample is the k-th pass. */
  lemma {:induction false} SamplesInOrder(pass: nat -> Option<seq<real>>, k: nat)
    requires forall j :: 0 <= j < k ==> pass(j).Some?
    ensures Samples(pass, k).Some? && |Samples(pass, k).value| == k
    ensures forall j :: 0 <= j < k ==> Samples(pass, k).value[j] == pass(j).value
  {
    if k > 0 {
      SamplesInOrder(pass, k - 1);
    }
  }

  /** A single failing pass makes the whole call fail. */
  lemma {:induction false} FailedPassFails(pass: nat -> Option<seq<real>>, k: nat, j: nat)
    requires j < k && pass(j).None?
    ensures Samples(pass, k).None?
  {
    if k - 1 > j {
      FailedPassFails(pass, k - 1, j);
    }
  }

  /** The summary of the collected samples. */
  function Summary(samples: seq<seq<real>>, ln: real -> real): (r: Result<McResult, McError>)
    requires |samples| > 0
    ensures r.Success? <==> Stats.Rectangular(samples, |samples[0]|)
    ensures r.Success? ==> r.value.samples == samples
    ensures r.Success? ==> r.value.meanProbability == Stats.Mean(samples, |samples[0]|)
    ensures r.Success? ==> r.value.uncertaintyVariance == Stats.Variance(samples, |samples[0]|)
    ensures r.Success? ==> r.value.entropy == Entropy(r.value.meanProbability, ln)
  {
    var w := |samples[0]|;
    if !Stats.Rectangular(samples, w) then Failure(RaggedSamples)
    else
      var m := Stats.Mean(samples, w);
      Success(McResult(m, Stats.Variance(samples, w), Entropy(m, ln), samples))
  }

  /** What `predict_with_uncertainty` returns: the argument checks first, then the passes. */
  function Outcome(t: Ensemble.Tensor, pass: nat -> Option<seq<real>>, numIterations: int, ln: real -> real)
    : Result<McResult, McError>
  {
    if numIterations < 2 then Failure(TooFewIterations)
    else if !Ensemble.IsSingleImageBatch(t) then Failure(BadInputShape)
    else
      match Samples(pass, numIterations)
      case None => Failure(PassFailed)
      case Some(s) => Summary(s, ln)
  }

  /** A success needs at least two iterations and one image, and keeps one sample per pass. */
  lemma OutcomeSuccess(t: Ensemble.Tensor, pass: nat -> Option<seq<real>>, numIterations: int, ln: real -> real)
    ensures var r := Outcome(t, pass, numIterations, ln);
      r.Success? ==> numIterations >= 2 && Ensemble.IsSingleImageBatch(t) && |r.value.samples| == numIterations
  {
  }

  /** `predict_with_uncertainty(model, image_tensor, num_iterations)`. */
  method PredictWithUncertainty(t: Ensemble.Tensor, pass: nat -> Option<seq<real>>, numIterations: int, ln: real -> real)
    returns (r: Result<McResult, McError>)
    ensures numIterations < 2 ==> r == Failure(TooFewIterations)
    ensures numIterations >= 2 && !Ensemble.IsSingleImageBatch(t) ==> r == Failure(BadInputShape)
    ensures numIterations >= 2 && Ensemble.IsSingleImageBatch(t) ==>
      match Samples(pass, numIterations)
      case None => r == Failure(PassFailed)
      case Some(s) => |s| == numIterations && r == Summary(s, ln)
    ensures r == Outcome(t, pass, numIterations, ln)
  {
    if numIterations < 2 {
      return Failure(TooFewIterations);
    }
    if !Ensemble.IsSingleImageBatch(t) {
      return Failure(BadInputShape);
    }
    var samples: seq<seq<real>> := [];
    var k := 0;
    while k < numIterations
      invariant 0 <= k <= numIterations
      invariant Samples(pass, k) == Some(samples) && |samples| == k
    {
      var out := pass(k);
      if out.None? {
        FailedPassFails(pass, numIterations, k);
        return Failure(PassFailed);
      }
      samples := samples + [out.value];
      k := k + 1;
    }
    r := Summary(samples, ln);
  }

  /** Passes that all agree give zero variance and their common output as the mean. */
  lemma DeterministicPasses(samples: seq<seq<real>>, v: seq<real>, ln: real -> real)
    requires |samples| > 0 && forall i :: 0 <= i < |samples| ==> samples[i] == v
    ensures Summary(samples, ln).Success?
    ensures Summary(samples, ln).value.meanProbability == v
    ensures forall j :: 0 <= j < |v| ==> Summary(samples, ln).value.uncertaintyVariance[j] == 0.0
  {
    Stats.IdenticalRows(samples, v);
  }
}
