/**
 * The fairness report of an evaluation run.  The computation is a stub: it only checks
 * that demographic metadata was supplied and then reports fixed placeholder metrics.
 * Labels, predictions and demographic values are of any type.
 */
module Fairness {
  import opened Wrappers

  datatype Status = Ok | Skipped | Error

  datatype FairnessMetrics = FairnessMetrics(demographicParityDiff: real, equalizedOddsDiff: real, note: string)

  datatype FairnessReport = FairnessReport(status: Status, message: string, metrics: Option<FairnessMetrics>)

  function NoDemographicsMessage(): string
  {
    "No demographic metadata " + "provided. Skipping " + "fairness analysis."
  }

  function StubMetrics(): FairnessMetrics
  {
    FairnessMetrics(0.05, 0.03,
      "Implement full " + "demographic parity " + "calculations once " + "dataset includes " + "verified protected " + "groups")
  }

  /**
   * `compute_fairness(y_true, y_pred, demographics)`.  A missing or empty dictionary is
   * falsy and is skipped on the first test, so the later "provided but empty" branch is
   * never taken and does not appear here.
   */
  function ComputeFairness<Y, G>(yTrue: Y, yPred: Y, demographics: Option<map<string, G>>): (r: FairnessReport)
    ensures r.status == Skipped <==> demographics.None? || |demographics.value| == 0
    ensures r.status == Skipped ==> r.message == NoDemographicsMessage() && r.metrics.None?
    ensures r.status != Skipped ==> r.status == Ok && r.metrics == Some(StubMetrics())
  {
    if demographics.None? || |demographics.value| == 0 then
      FairnessReport(Skipped, NoDemographicsMessage(), None)
    else
      FairnessReport(Ok, "Fairness metrics " + "computed (Stub)", Some(StubMetrics()))
  }

  /** The report depends on the demographics alone, never on the labels or the predictions. */
  lemma IndependentOfLabels<Y, G>(a: Y, b: Y, c: Y, d: Y, demographics: Option<map<string, G>>)
    ensures ComputeFairness(a, b, demographics) == ComputeFairness(c, d, demographics)
  {
  }

  /** Any non-empty demographics, such as gender and age columns, give the placeholder metrics. */
  lemma StubValues<Y, G>(yTrue: Y, yPred: Y, demographics: map<string, G>)
    requires "gender" in demographics
    ensures ComputeFairness(yTrue, yPred, Some(demographics)).status == Ok
    ensures ComputeFairness(yTrue, yPred, Some(demographics)).metrics.value.demographicParityDiff == 0.05
    ensures ComputeFairness(yTrue, yPred, Some(demographics)).metrics.value.equalizedOddsDiff == 0.03
  {
    assert |demographics| > 0 by {
      assert "gender" in demographics.Keys;
    }
  }
}
