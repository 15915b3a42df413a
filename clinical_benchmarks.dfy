/**
 * Static radiologist benchmarks and the qualitative comparison of a model confidence
 * against the radiologist sensitivity for the mapped condition.
 */
module ClinicalBenchmarks {
  import opened Wrappers
  import Tables
  import Text

  datatype Benchmark = Benchmark(radiologistAvgSensitivity: real, radiologistAvgSpecificity: real, sotaAiAuc: real)

  const Benchmarks: seq<(string, Benchmark)> := [
    ("pneumonia", Benchmark(0.85, 0.90, 0.96)),
    ("lung_cancer", Benchmark(0.78, 0.92, 0.94))
  ]

  const ClassToCondition: seq<(string, string)> := [
    ("03_NORMAL_PNEUMONIA", "pneumonia"),
    ("06_PNEUMONIA", "pneumonia"),
    ("04_LUNG_CANCER", "lung_cancer")
  ]

  const NoMappingMessage := "No benchmark mapping available for this class."
  const NoDataMessage := "No benchmark data available."
  const MeetsMessage := "Model confidence meets or exceeds typical radiologist sensitivity."
  const ApproachesMessage := "Model confidence approaches typical radiologist sensitivity."
  const BelowMessage := "Model confidence is below typical screening thresholds; human review is strongly recommended."

  function GetConditionForLabel(classLabel: string): Option<string>
  {
    Tables.Lookup(ClassToCondition, classLabel)
  }

  /** Benchmarks are found whatever the letter case of the condition name. */
  function GetBenchmark(conditionName: string): Option<Benchmark>
  {
    Tables.Lookup(Benchmarks, Text.Lower(conditionName))
  }

  /** Exactly the listed class labels are mapped, and each to a condition that has a benchmark. */
  lemma MappedConditionsHaveBenchmarks(classLabel: string)
    ensures GetConditionForLabel(classLabel).Some? <==> classLabel in Tables.Keys(ClassToCondition)
    ensures GetConditionForLabel(classLabel).Some? ==> GetBenchmark(GetConditionForLabel(classLabel).value).Some?
  {
    var cond := GetConditionForLabel(classLabel);
    if cond.Some? {
      assert (classLabel, cond.value) in ClassToCondition;
      assert cond.value == "pneumonia" || cond.value == "lung_cancer";
      assert Text.Lower("pneumonia") == "pneumonia";
      assert Text.Lower("lung_cancer") == "lung_cancer";
    }
  }

  /** The outcome of a comparison, in increasing order of agreement with the benchmark. */
  datatype Verdict = NoMapping | NoData | Below | Approaches | Meets

  function Message(v: Verdict): string
  {
    match v
    case NoMapping => NoMappingMessage
    case NoData => NoDataMessage
    case Below => BelowMessage
    case Approaches => ApproachesMessage
    case Meets => MeetsMessage
  }

  function Max(a: real, b: real): real { if a >= b then a else b }

  /** The verdict reached against a known sensitivity threshold. */
  function Grade(confidence: real, threshold: real): (v: Verdict)
    ensures v == Meets <==> confidence >= threshold
    ensures v == Approaches <==> Max(0.0, threshold - 0.1) <= confidence < threshold
    ensures v == Below <==> confidence < threshold && confidence < Max(0.0, threshold - 0.1)
  {
    if confidence >= threshold then Meets
    else if confidence >= Max(0.0, threshold - 0.1) then Approaches
    else Below
  }

  function Compare(classLabel: string, confidence: real): Verdict
  {
    match GetConditionForLabel(classLabel)
    case None => NoMapping
    case Some(condition) =>
      if condition == "" then NoMapping
      else
        match GetBenchmark(condition)
        case None => NoData
        case Some(bm) => Grade(confidence, bm.radiologistAvgSensitivity)
  }

  /** `compare_score(class_label, confidence_score)`. */
  function CompareScore(classLabel: string, confidence: real): (msg: string)
    ensures classLabel !in Tables.Keys(ClassToCondition) ==> msg == NoMappingMessage
    ensures msg != NoDataMessage
  {
    MappedLabelsHaveData(classLabel);
    Message(Compare(classLabel, confidence))
  }

  /** Every mapped classLabel has a benchmark, so "no benchmark data" is never reported. */
  lemma MappedLabelsHaveData(classLabel: string)
    ensures Compare(classLabel, 0.0) != NoData
    ensures forall c :: Compare(classLabel, c) != NoData
  {
    var cond := GetConditionForLabel(classLabel);
    if cond.Some? {
      assert (classLabel, cond.value) in ClassToCondition;
      assert cond.value == "pneumonia" || cond.value == "lung_cancer";
      assert Text.Lower("pneumonia") == "pneumonia";
      assert Text.Lower("lung_cancer") == "lung_cancer";
    }
  }

  function Rank(v: Verdict): nat
  {
    match v
    case NoMapping => 0
    case NoData => 0
    case Below => 1
    case Approaches => 2
    case Meets => 3
  }

  /** A higher confidence never gets a worse verdict for the same class. */
  lemma CompareMonotone(classLabel: string, c1: real, c2: real)
    requires c1 <= c2
    ensures Rank(Compare(classLabel, c1)) <= Rank(Compare(classLabel, c2))
  {
  }

  /** The pneumonia bands: meets from 0.85, approaches from 0.75, below otherwise. */
  lemma PneumoniaBands(c: real)
    ensures c >= 0.85 ==> CompareScore("06_PNEUMONIA", c) == MeetsMessage
    ensures 0.75 <= c < 0.85 ==> CompareScore("06_PNEUMONIA", c) == ApproachesMessage
    ensures c < 0.75 ==> CompareScore("03_NORMAL_PNEUMONIA", c) == BelowMessage
  {
    assert Text.Lower("pneumonia") == "pneumonia";
  }

  /** The lung-cancer bands: meets from 0.78, approaches from 0.68. */
  lemma LungCancerBands(c: real)
    ensures c >= 0.78 ==> CompareScore("04_LUNG_CANCER", c) == MeetsMessage
    ensures 0.68 <= c < 0.78 ==> CompareScore("04_LUNG_CANCER", c) == ApproachesMessage
    ensures c < 0.68 ==> CompareScore("04_LUNG_CANCER", c) == BelowMessage
  {
    assert Text.Lower("lung_cancer") == "lung_cancer";
  }

  /** Labels compare exactly: a bare condition name or a fracture class has no mapping. */
  lemma UnmappedLabels(c: real)
    ensures CompareScore("05_FRACTURED", c) == NoMappingMessage
    ensures CompareScore("PNEUMONIA", c) == NoMappingMessage
    ensures CompareScore("01_NORMAL_LUNG", c) == NoMappingMessage
  {
  }

  /** Condition names are case-insensitive in GetBenchmark. */
  lemma BenchmarkCaseInsensitive()
    ensures GetBenchmark("PNEUMONIA") == GetBenchmark("pneumonia") == Some(Benchmark(0.85, 0.90, 0.96))
    ensures GetBenchmark("Lung_Cancer") == Some(Benchmark(0.78, 0.92, 0.94))
    ensures GetBenchmark("fracture") == None
  {
    assert Text.Lower("PNEUMONIA") == "pneumonia";
    assert Text.Lower("pneumonia") == "pneumonia";
    assert Text.Lower("Lung_Cancer") == "lung_cancer";
    assert Text.Lower("fracture") == "fracture";
  }
}
