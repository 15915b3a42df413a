/**
 * The soft-voting ensemble of Keras classifiers.  Loading a model file and running a
 * model are outside the model: `Loader` says which paths exist and what loading each gives
 * (None when load_model raises), and a member's prediction is given by a function that
 * returns the first row of its output batch (None when predict raises).
 */
module Ensemble {
  import opened Wrappers
  import Stats
  import Text

  /** A loaded model: the file it came from and its declared output shape. */
  datatype Model = Model(path: string, outputShape: seq<int>)

  datatype Loader = Loader(pathExists: string -> bool, load: string -> Option<Model>)

  /** The shape of an input array. */
  datatype Tensor = Tensor(shape: seq<int>)

  /** An input the ensemble accepts: four dimensions with a batch of one. */
  predicate IsSingleImageBatch(t: Tensor)
  {
    |t.shape| == 4 && t.shape[0] == 1
  }

  datatype PredictError =
    | BadInputShape       // ValueError on a tensor that is not (1, H, W, C)
    | NoPredictions       // RuntimeError when every member failed
    | RaggedPredictions   // np.array refuses member outputs of different widths

  datatype Prediction = Prediction(
    meanProbability: seq<real>,
    variance: seq<real>,
    individualPredictions: seq<seq<real>>,
    modelCount: nat)

  const InitFailedMessage := "MedicalEnsemble initialization failed: no valid model paths found."

  /** `os.path.basename`: the text after the last '/'. */
  function Basename(path: string): (r: string)
    ensures '/' !in r
    ensures Text.EndsWith(path, r)
    ensures |r| == |path| || path[|path| - |r| - 1] == '/'
    decreases |path|
  {
    var k := Text.IndexOfChar(path, '/');
    if k < 0 then path
    else
      var rest := path[k + 1..];
      var r := Basename(rest);
      assert |r| < |rest| ==> path[|path| - |r| - 1] == rest[|rest| - |r| - 1];
      r
  }

  /** The models construction keeps: those whose path exists and loads, in the given order. */
  function Loaded(paths: seq<string>, loader: Loader): (ms: seq<Model>)
    ensures |ms| <= |paths|
  {
    if paths == [] then []
    else
      var p := paths[|paths| - 1];
      Loaded(paths[..|paths| - 1], loader)
        + (if loader.pathExists(p) && loader.load(p).Some? then [loader.load(p).value] else [])
  }

  /** The name recorded for each kept model: the basename of the path it was loaded from. */
  function LoadedNames(paths: seq<string>, loader: Loader): (ns: seq<string>)
  {
    if paths == [] then []
    else
      var p := paths[|paths| - 1];
      LoadedNames(paths[..|paths| - 1], loader)
        + (if loader.pathExists(p) && loader.load(p).Some? then [Basename(p)] else [])
  }

  lemma {:induction false} LoadedNamesAligned(paths: seq<string>, loader: Loader)
    ensures |LoadedNames(paths, loader)| == |Loaded(paths, loader)|
  {
    if paths != [] {
      LoadedNamesAligned(paths[..|paths| - 1], loader);
    }
  }

  /** A model is kept exactly when its path exists and loads; the output shape plays no part. */
  lemma {:induction false} LoadedMembership(paths: seq<string>, loader: Loader, m: Model)
    ensures m in Loaded(paths, loader) <==>
      exists i :: 0 <= i < |paths| && loader.pathExists(paths[i]) && loader.load(paths[i]) == Some(m)
  {
    if paths != [] {
      var init := paths[..|paths| - 1];
      LoadedMembership(init, loader, m);
      var p := paths[|paths| - 1];
      if m in Loaded(paths, loader) {
        if m !in Loaded(init, loader) {
          assert loader.load(p) == Some(m);
        } else {
          var i :| 0 <= i < |init| && loader.pathExists(init[i]) && loader.load(init[i]) == Some(m);
          assert paths[i] == init[i];
        }
      } else {
        forall i | 0 <= i < |paths| && loader.pathExists(paths[i])
          ensures loader.load(paths[i]) != Some(m)
        {
          if i < |init| {
            assert paths[i] == init[i];
          }
        }
      }
    }
  }

  /** A path that does not exist, or whose loading fails, contributes nothing. */
  lemma SkippedPath(paths: seq<string>, p: string, loader: Loader)
    requires !loader.pathExists(p) || loader.load(p).None?
    ensures Loaded(paths + [p], loader) == Loaded(paths, loader)
    ensures LoadedNames(paths + [p], loader) == LoadedNames(paths, loader)
  {
    assert (paths + [p])[..|paths|] == paths;
  }

  /** The loading loop of `MedicalEnsemble.__init__`. */
  method LoadMembers(paths: seq<string>, loader: Loader) returns (models: seq<Model>, names: seq<string>)
    ensures models == Loaded(paths, loader)
    ensures names == LoadedNames(paths, loader)
  {
    models, names := [], [];
    var i := 0;
    while i < |paths|
      invariant 0 <= i <= |paths|
      invariant models == Loaded(paths[..i], loader)
      invariant names == LoadedNames(paths[..i], loader)
    {
      var p := paths[i];
      assert paths[..i + 1][..i] == paths[..i];
      if loader.pathExists(p) {
        var loaded := loader.load(p);
        if loaded.Some? {
          models := models + [loaded.value];
          names := names + [Basename(p)];
        }
      }
      i := i + 1;
    }
    assert paths[..|paths|] == paths;
  }

  /** What predict collects: the outputs of the members that did not raise, in member order. */
  function Successful(models: seq<Model>, run: Model -> Option<seq<real>>): (outs: seq<seq<real>>)
    ensures |outs| <= |models|
  {
    if models == [] then []
    else
      var m := models[|models| - 1];
      Successful(models[..|models| - 1], run) + (if run(m).Some? then [run(m).value] else [])
  }

  /** Every member that did not raise contributes its output. */
  lemma {:induction false} AllSucceed(models: seq<Model>, run: Model -> Option<seq<real>>)
    requires forall i :: 0 <= i < |models| ==> run(models[i]).Some?
    ensures |Successful(models, run)| == |models|
    ensures forall i :: 0 <= i < |models| ==> Successful(models, run)[i] == run(models[i]).value
  {
    if models != [] {
      var init := models[..|models| - 1];
      AllSucceed(init, run);
    }
  }

  /** The result `predict` returns for the collected outputs `outs`. */
  function Summarise(outs: seq<seq<real>>, modelCount: nat): (r: Result<Prediction, PredictError>)
    ensures outs == [] ==> r == Failure(NoPredictions)
    ensures outs != [] ==> (r.Success? <==> Stats.Rectangular(outs, |outs[0]|))
    ensures r.Success? ==> r.value.individualPredictions == outs && r.value.modelCount == modelCount
    ensures r.Success? ==> |r.value.meanProbability| == |r.value.variance| == |outs[0]|
    ensures r.Success? ==> r.value.meanProbability == Stats.Mean(outs, |outs[0]|)
    ensures r.Success? ==> r.value.variance == Stats.Variance(outs, |outs[0]|)
  {
    if outs == [] then Failure(NoPredictions)
    else if !Stats.Rectangular(outs, |outs[0]|) then Failure(RaggedPredictions)
    else Success(Prediction(Stats.Mean(outs, |outs[0]|), Stats.Variance(outs, |outs[0]|), outs, modelCount))
  }

  /** A single successful member: its output is the mean and the variance is zero. */
  lemma SingleMember(out: seq<real>, modelCount: nat)
    ensures Summarise([out], modelCount).Success?
    ensures Summarise([out], modelCount).value.meanProbability == out
    ensures forall j :: 0 <= j < |out| ==> Summarise([out], modelCount).value.variance[j] == 0.0
  {
    Stats.IdenticalRows([out], out);
  }

  /** With probability vectors as member outputs, the mean is a probability vector. */
  lemma MeanOfProbabilities(outs: seq<seq<real>>, modelCount: nat)
    requires outs != [] && Stats.Rectangular(outs, |outs[0]|)
    requires forall i, j :: 0 <= i < |outs| && 0 <= j < |outs[0]| ==> 0.0 <= outs[i][j] <= 1.0
    ensures var r := Summarise(outs, modelCount);
      r.Success? && forall j :: 0 <= j < |outs[0]| ==>
        0.0 <= r.value.meanProbability[j] <= 1.0 && r.value.variance[j] >= 0.0
  {
    Stats.MeanWithinBounds(outs, |outs[0]|, 0.0, 1.0);
    Stats.VarianceNonNegative(outs, |outs[0]|);
  }

  class MedicalEnsemble {
    var models: seq<Model>
    var modelNames: seq<string>

    predicate Valid()
      reads this
    {
      |models| > 0 && |models| == |modelNames|
    }

    constructor Init(ms: seq<Model>, ns: seq<string>)
      requires |ms| > 0 && |ms| == |ns|
      ensures Valid() && models == ms && modelNames == ns
    {
      models := ms;
      modelNames := ns;
    }

    /** `MedicalEnsemble(paths)`: load every member, or fail when none loads. */
    static method Create(paths: seq<string>, loader: Loader) returns (r: Result<MedicalEnsemble, string>)
      ensures r.Failure? <==> Loaded(paths, loader) == []
      ensures r.Failure? ==> r.error == InitFailedMessage
      ensures r.Success? ==> fresh(r.value) && r.value.Valid()
      ensures r.Success? ==> r.value.models == Loaded(paths, loader)
      ensures r.Success? ==> r.value.modelNames == LoadedNames(paths, loader)
    {
      var ms, ns := LoadMembers(paths, loader);
      LoadedNamesAligned(paths, loader);
      if ms == [] {
        return Failure(InitFailedMessage);
      }
      var e := new MedicalEnsemble.Init(ms, ns);
      return Success(e);
    }

    /** `predict`: run every member, skip the ones that raise, and average the rest. */
    method Predict(t: Tensor, run: Model -> Option<seq<real>>) returns (r: Result<Prediction, PredictError>)
      requires Valid()
      ensures !IsSingleImageBatch(t) ==> r == Failure(BadInputShape)
      ensures IsSingleImageBatch(t) ==> r == Summarise(Successful(models, run), |models|)
    {
      if !IsSingleImageBatch(t) {
        return Failure(BadInputShape);
      }
      var outs: seq<seq<real>> := [];
      var i := 0;
      while i < |models|
        invariant 0 <= i <= |models|
        invariant outs == Successful(models[..i], run)
      {
        assert models[..i + 1][..i] == models[..i];
        var out := run(models[i]);
        if out.Some? {
          outs := outs + [out.value];
        }
        i := i + 1;
      }
      assert models[..|models|] == models;
      r := Summarise(outs, |models|);
    }
  }
}
