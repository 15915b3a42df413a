/**
 * The retraining decision: new evaluation metrics are compared with the thresholds of a
 * configuration file.  Low accuracy and high drift each call for retraining; a jump in the
 * false-positive rate is always reported but calls for retraining only when the
 * configured action says so.  Reading and parsing the YAML file is outside the model:
 * the constructor receives whether the file exists and its parsed content.  Metric
 * values are reals (absent keys are Python's `None`); `repr` is Python's float `str()`.
 */
module RetrainingTrigger {
  import opened Wrappers
  import Text
  import Numbers

  /** The parsed file: its `thresholds` section and its `actions` section (empty when absent). */
  datatype Config = Config(thresholds: map<string, real>, actions: map<string, string>)

  datatype TriggerDecision = TriggerDecision(shouldRetrain: bool, reason: string, details: map<string, real>)

  datatype LoadError = FileNotFound(message: string)

  const NoTriggers := "No triggers activated"

  /** `accuracy < accuracy_min`, both present. */
  predicate AccuracyBreach(metrics: map<string, real>, th: map<string, real>)
  {
    "accuracy" in metrics && "accuracy_min" in th && metrics["accuracy"] < th["accuracy_min"]
  }

  /** `drift_score > drift_score_max`, both present. */
  predicate DriftBreach(metrics: map<string, real>, th: map<string, real>)
  {
    "drift_score" in metrics && "drift_score_max" in th && metrics["drift_score"] > th["drift_score_max"]
  }

  /** `false_positive_rate_delta > false_positive_rate_max_delta`, both present. */
  predicate FpBreach(metrics: map<string, real>, th: map<string, real>)
  {
    "false_positive_rate_delta" in metrics && "false_positive_rate_max_delta" in th
    && metrics["false_positive_rate_delta"] > th["false_positive_rate_max_delta"]
  }

  /** `actions.get("on_fp_rate_breach", "alert_only")`. */
  function FpAction(config: Config): string
  {
    if "on_fp_rate_breach" in config.actions then config.actions["on_fp_rate_breach"] else "alert_only"
  }

  function Fixed4(x: real): string
  {
    Numbers.FormatFixed(x, 4, Numbers.HalfEven)
  }

  function AccuracyMessage(accuracy: real, minimum: real, repr: real -> string): string
  {
    "accuracy " + Fixed4(accuracy) + " < " + repr(minimum)
  }

  function DriftMessage(drift: real, maximum: real, repr: real -> string): string
  {
    "drift_score " + repr(drift) + " > " + repr(maximum)
  }

  function FpMessage(fp: real, maximum: real, action: string, repr: real -> string): string
  {
    "false_positive_rate_delta " + Fixed4(fp) + " > " + repr(maximum) + " (" + action + ")"
  }

  function AccuracyReasons(metrics: map<string, real>, th: map<string, real>, repr: real -> string): seq<string>
  {
    if AccuracyBreach(metrics, th) then [AccuracyMessage(metrics["accuracy"], th["accuracy_min"], repr)] else []
  }

  function DriftReasons(metrics: map<string, real>, th: map<string, real>, repr: real -> string): seq<string>
  {
    if DriftBreach(metrics, th) then [DriftMessage(metrics["drift_score"], th["drift_score_max"], repr)] else []
  }

  function FpReasons(metrics: map<string, real>, config: Config, repr: real -> string): seq<string>
  {
    var th := config.thresholds;
    if FpBreach(metrics, th) then
      [FpMessage(metrics["false_positive_rate_delta"], th["false_positive_rate_max_delta"], FpAction(config), repr)]
    else []
  }

  /** The reasons in check order: accuracy, drift, false-positive rate. */
  function Reasons(metrics: map<string, real>, config: Config, repr: real -> string): seq<string>
  {
    AccuracyReasons(metrics, config.thresholds, repr) + DriftReasons(metrics, config.thresholds, repr)
    + FpReasons(metrics, config, repr)
  }

  /** Whether the breaches found call for retraining. */
  predicate Retrain(metrics: map<string, real>, config: Config)
  {
    AccuracyBreach(metrics, config.thresholds) || DriftBreach(metrics, config.thresholds)
    || (FpBreach(metrics, config.thresholds) && FpAction(config) == "trigger_retrain")
  }

  /** The decision `evaluate` reaches on `metrics`. */
  function Decision(metrics: map<string, real>, config: Config, repr: real -> string): TriggerDecision
  {
    var reasons := Reasons(metrics, config, repr);
    if reasons == [] then TriggerDecision(false, NoTriggers, metrics)
    else TriggerDecision(Retrain(metrics, config), Text.Join(reasons, "; "), metrics)
  }

  class Trigger {
    var config: Config

    constructor (config: Config)
      ensures this.config == config
    {
      this.config := config;
    }

    /** `RetrainingTrigger(path)`: a missing thresholds file is an error. */
    static method Open(pathExists: bool, path: string, config: Config) returns (r: Result<Trigger, LoadError>)
      ensures !pathExists ==> r == Failure(FileNotFound("Thresholds file not found at " + path))
      ensures pathExists ==> r.Success? && fresh(r.value) && r.value.config == config
    {
      if !pathExists {
        return Failure(FileNotFound("Thresholds file not found at " + path));
      }
      var t := new Trigger(config);
      r := Success(t);
    }

    /** `evaluate(metrics)`: the three checks in order, collecting reasons. */
    method Evaluate(metrics: map<string, real>, repr: real -> string) returns (d: TriggerDecision)
      ensures d == Decision(metrics, config, repr)
    {
      var th := config.thresholds;
      var reasons: seq<string> := [];
      var shouldRetrain := false;
      if "accuracy" in metrics && "accuracy_min" in th {
        if metrics["accuracy"] < th["accuracy_min"] {
          shouldRetrain := true;
          reasons := reasons + [AccuracyMessage(metrics["accuracy"], th["accuracy_min"], repr)];
        }
      }
      assert reasons == AccuracyReasons(metrics, th, repr);
      assert shouldRetrain == AccuracyBreach(metrics, th);
      if "drift_score" in metrics && "drift_score_max" in th {
        if metrics["drift_score"] > th["drift_score_max"] {
          shouldRetrain := true;
          reasons := reasons + [DriftMessage(metrics["drift_score"], th["drift_score_max"], repr)];
        }
      }
      assert reasons == AccuracyReasons(metrics, th, repr) + DriftReasons(metrics, th, repr);
      assert shouldRetrain == (AccuracyBreach(metrics, th) || DriftBreach(metrics, th));
      if "false_positive_rate_delta" in metrics && "false_positive_rate_max_delta" in th {
        if metrics["false_positive_rate_delta"] > th["false_positive_rate_max_delta"] {
          var action := FpAction(config);
          reasons := reasons + [FpMessage(metrics["false_positive_rate_delta"], th["false_positive_rate_max_delta"], action, repr)];
          if action == "trigger_retrain" {
            shouldRetrain := true;
          }
        }
      }
      assert reasons == Reasons(metrics, config, repr);
      assert shouldRetrain == Retrain(metrics, config);
      if reasons == [] {
        return TriggerDecision(false, NoTriggers, metrics);
      }
      d := TriggerDecision(shouldRetrain, Text.Join(reasons, "; "), metrics);
    }
  }

  /** Retraining is only ever requested with a reason, and the metrics are always the details. */
  lemma RetrainHasReason(metrics: map<string, real>, config: Config, repr: real -> string)
    ensures Decision(metrics, config, repr).details == metrics
    ensures Decision(metrics, config, repr).shouldRetrain ==> Reasons(metrics, config, repr) != []
    ensures Decision(metrics, config, repr).reason == NoTriggers <== Reasons(metrics, config, repr) == []
  {
  }

  /** A metric exactly at its threshold triggers nothing. */
  lemma ThresholdsAreStrict(metrics: map<string, real>, config: Config, repr: real -> string)
    requires "accuracy" in metrics && "accuracy_min" in config.thresholds
      ==> metrics["accuracy"] == config.thresholds["accuracy_min"]
    requires "drift_score" in metrics && "drift_score_max" in config.thresholds
      ==> metrics["drift_score"] == config.thresholds["drift_score_max"]
    requires "false_positive_rate_delta" in metrics && "false_positive_rate_max_delta" in config.thresholds
      ==> metrics["false_positive_rate_delta"] == config.thresholds["false_positive_rate_max_delta"]
    ensures Decision(metrics, config, repr) == TriggerDecision(false, NoTriggers, metrics)
  {
  }

  /**
   * Under the default "alert_only" action a false-positive breach alone is reported but
   * does not request retraining.
   */
  lemma AlertOnlyReports(metrics: map<string, real>, config: Config, repr: real -> string)
    requires !AccuracyBreach(metrics, config.thresholds) && !DriftBreach(metrics, config.thresholds)
    requires FpBreach(metrics, config.thresholds) && FpAction(config) != "trigger_retrain"
    ensures !Decision(metrics, config, repr).shouldRetrain
    ensures Decision(metrics, config, repr).reason == Reasons(metrics, config, repr)[0]
    ensures Text.EndsWith(Decision(metrics, config, repr).reason, " (" + FpAction(config) + ")")
  {
    var r := Reasons(metrics, config, repr);
    assert |r| == 1;
    assert Text.Join(r, "; ") == r[0];
  }

  /** An accuracy breach always requests retraining and is reported first. */
  lemma AccuracyBreachFirst(metrics: map<string, real>, config: Config, repr: real -> string)
    requires AccuracyBreach(metrics, config.thresholds)
    ensures Decision(metrics, config, repr).shouldRetrain
    ensures Text.StartsWith(Decision(metrics, config, repr).reason,
      AccuracyMessage(metrics["accuracy"], config.thresholds["accuracy_min"], repr))
  {
    var r := Reasons(metrics, config, repr);
    var m := AccuracyMessage(metrics["accuracy"], config.thresholds["accuracy_min"], repr);
    assert r[0] == m;
    var j := Text.Join(r, "; ");
    if |r| == 1 {
      assert j == m;
    } else {
      assert j == m + "; " + Text.Join(r[1..], "; ");
      assert j[..|m|] == m;
    }
  }

  /** With the "trigger_retrain" action a false-positive breach requests retraining. */
  lemma FpTriggerRetrains(metrics: map<string, real>, config: Config, repr: real -> string)
    requires FpBreach(metrics, config.thresholds) && FpAction(config) == "trigger_retrain"
    ensures Decision(metrics, config, repr).shouldRetrain
  {
  }

  lemma EightThousandths()
    ensures Fixed4(0.8) == "0.8000"
  {
    assert Numbers.Pow10(4) == 10000;
    assert Numbers.ScaledDigits(0.8, 4, Numbers.HalfEven) == 8000;
    assert Numbers.DigitsOf(0) == "0";
    assert Numbers.DigitsOf(8) == "8";
    assert Numbers.DigitsOf(80) == "80";
    assert Numbers.DigitsOf(800) == "800";
    assert Numbers.DigitsOf(8000) == "8000";
    assert Numbers.PadZeros("8000", 4) == "8000";
    assert Numbers.FixedDigits(8000, 4) == "0" + "." + "8000";
  }

  lemma AccuracyExampleMessage(repr: real -> string)
    requires repr(0.85) == "0.85"
    ensures AccuracyMessage(0.80, 0.85, repr) == "accuracy 0.8000 < 0.85"
  {
    EightThousandths();
  }

  /**
   * Accuracy 0.80 against a minimum of 0.85, with drift and false-positive rate inside
   * their limits, requests retraining for "accuracy 0.8000 < 0.85".
   */
  lemma LowAccuracyExample(repr: real -> string)
    requires repr(0.85) == "0.85"
    ensures var config := Config(map["accuracy_min" := 0.85, "drift_score_max" := 0.3,
        "false_positive_rate_max_delta" := 0.10], map["on_fp_rate_breach" := "alert_only"]);
      var metrics := map["accuracy" := 0.80, "drift_score" := 0.1, "false_positive_rate_delta" := 0.0];
      Decision(metrics, config, repr) == TriggerDecision(true, "accuracy 0.8000 < 0.85", metrics)
  {
    var config := Config(map["accuracy_min" := 0.85, "drift_score_max" := 0.3,
        "false_positive_rate_max_delta" := 0.10], map["on_fp_rate_breach" := "alert_only"]);
    var metrics := map["accuracy" := 0.80, "drift_score" := 0.1, "false_positive_rate_delta" := 0.0];
    var th := config.thresholds;
    assert metrics["accuracy"] == 0.80 && th["accuracy_min"] == 0.85;
    assert AccuracyBreach(metrics, th);
    AccuracyExampleMessage(repr);
    assert AccuracyReasons(metrics, config.thresholds, repr) == ["accuracy 0.8000 < 0.85"];
    assert !DriftBreach(metrics, config.thresholds) && !FpBreach(metrics, config.thresholds);
    assert Reasons(metrics, config, repr) == ["accuracy 0.8000 < 0.85"];
  }
}
