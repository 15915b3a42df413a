/**
 * The drift report for a new batch of training data: an early-return ladder of checks
 * (schema present, data present, validation library installed, schema parseable, data in
 * TFRecord format) ending in the anomaly count of the validation.  What the filesystem and
 * the validation library would say is given as an `Environment`.
 */
module DriftDetection {
  import opened Wrappers
  import Text
  import Numbers

  datatype Status = Ok | DriftDetected | Skipped | Error

  /** The status as written to the JSON report. */
  function StatusName(s: Status): (name: string)
    ensures s == Ok <==> name == "ok"
  {
    match s
    case Ok => "ok"
    case DriftDetected => "drift_detected"
    case Skipped => "skipped"
    case Error => "error"
  }

  datatype Details = PathDetail(path: string) | AnomalyInfo(anomalyInfo: map<string, string>)

  datatype DriftReport = DriftReport(status: Status, message: string, driftScore: Option<real>, details: Option<Details>)

  /**
   * What the outside world answers: whether the two paths exist, whether the validation
   * library imports, the message of the exception raised while parsing the schema (if any),
   * and either the anomalies found (key to description) or the message of the exception
   * raised while computing and validating the statistics.
   */
  datatype Environment = Environment(
    schemaExists: bool,
    dataExists: bool,
    tfdvInstalled: bool,
    schemaParseError: Option<string>,
    validation: Result<map<string, string>, string>)

  function NotInstalledMessage(): string
  {
    "TFDV not installed. " + "Install " + "tensorflow-data-validation " + "to enable drift " + "detection."
  }

  function UnsupportedFormatMessage(): string
  {
    "Drift detection skipped: " + "non-TFRecord" + UnsupportedFormatTail()
  }

  function UnsupportedFormatTail(): string
  {
    " data format (only " + ".tfrecord supported " + "currently)"
  }

  function MissingSchemaMessage(schemaPath: string): string
  {
    "Schema file not found at " + schemaPath
  }

  function MissingDataMessage(newDataPath: string): string
  {
    "New data not found at " + newDataPath
  }

  /** `str(path).endswith((".tfrecord", ".tfrecords", ".gz"))`. */
  predicate IsTfRecordPath(path: string)
  {
    Text.EndsWith(path, ".tfrecord") || Text.EndsWith(path, ".tfrecords") || Text.EndsWith(path, ".gz")
  }

  /** The report after a successful validation finding `anomalies`. */
  function AnomalyReport(anomalies: map<string, string>): DriftReport
  {
    var count := |anomalies|;
    DriftReport(
      if count == 0 then Ok else DriftDetected,
      if count == 0 then "No drift detected" else "Drift/anomalies detected: " + Numbers.DigitsOf(count),
      Some(count as real),
      Some(AnomalyInfo(anomalies)))
  }

  /** Whether `detect_drift` gets as far as computing statistics. */
  predicate ReachesValidation(newDataPath: string, env: Environment)
  {
    env.schemaExists && env.dataExists && env.tfdvInstalled && env.schemaParseError.None?
    && IsTfRecordPath(newDataPath)
  }

  /** `DataDriftDetector(schemaPath).detect_drift(newDataPath)`. */
  function DetectDrift(schemaPath: string, newDataPath: string, env: Environment): (r: DriftReport)
    ensures r.status == Error <==>
      !env.schemaExists || !env.dataExists
      || (env.tfdvInstalled && (env.schemaParseError.Some?
          || (IsTfRecordPath(newDataPath) && env.validation.Failure?)))
    ensures r.status == Skipped <==>
      env.schemaExists && env.dataExists
      && (!env.tfdvInstalled || (env.schemaParseError.None? && !IsTfRecordPath(newDataPath)))
    ensures r.driftScore.Some? <==> ReachesValidation(newDataPath, env) && env.validation.Success?
    ensures r.driftScore.Some? ==> r == AnomalyReport(env.validation.value)
  {
    if !env.schemaExists then
      DriftReport(Error, MissingSchemaMessage(schemaPath), None, None)
    else if !env.dataExists then
      DriftReport(Error, MissingDataMessage(newDataPath), None, None)
    else if !env.tfdvInstalled then
      DriftReport(Skipped, NotInstalledMessage(), None, None)
    else if env.schemaParseError.Some? then
      DriftReport(Error, env.schemaParseError.value, None, None)
    else if !IsTfRecordPath(newDataPath) then
      DriftReport(Skipped, UnsupportedFormatMessage(), None, Some(PathDetail(newDataPath)))
    else match env.validation
      case Failure(e) => DriftReport(Error, e, None, None)
      case Success(anomalies) => AnomalyReport(anomalies)
  }

  /** The command line's exit status. */
  function ExitCode(report: DriftReport): (code: int)
    ensures code == 0 || code == 1
    ensures code == 1 <==> StatusName(report.status) in ["error", "drift_detected"]
  {
    if report.status == Error || report.status == DriftDetected then 1 else 0
  }

  /** The score is the number of anomalies, and the status is "ok" exactly when there are none. */
  lemma ScoreIsAnomalyCount(anomalies: map<string, string>)
    ensures AnomalyReport(anomalies).driftScore == Some(|anomalies| as real)
    ensures AnomalyReport(anomalies).status == Ok <==> |anomalies| == 0
    ensures AnomalyReport(anomalies).status == Ok || AnomalyReport(anomalies).status == DriftDetected
    ensures AnomalyReport(anomalies).details == Some(AnomalyInfo(anomalies))
  {
  }

  /** A successful run exits with failure exactly when an anomaly was found. */
  lemma ExitOnDrift(schemaPath: string, newDataPath: string, env: Environment)
    requires ReachesValidation(newDataPath, env) && env.validation.Success?
    ensures ExitCode(DetectDrift(schemaPath, newDataPath, env)) == 1 <==> |env.validation.value| > 0
  {
  }

  /** A missing schema is reported before anything else. */
  lemma MissingSchemaFirst(schemaPath: string, newDataPath: string, env: Environment)
    requires !env.schemaExists
    ensures DetectDrift(schemaPath, newDataPath, env).message == MissingSchemaMessage(schemaPath)
    ensures ExitCode(DetectDrift(schemaPath, newDataPath, env)) == 1
  {
  }

  /** The schema is parsed before the format is checked: a parse failure is an error even for a CSV file. */
  lemma ParseErrorBeforeFormat(schemaPath: string, newDataPath: string, env: Environment)
    requires env.schemaExists && env.dataExists && env.tfdvInstalled && env.schemaParseError.Some?
    ensures DetectDrift(schemaPath, newDataPath, env) == DriftReport(Error, env.schemaParseError.value, None, None)
  {
  }

  /** Data in another format, with a readable schema, is skipped with a "non-TFRecord" message. */
  lemma UnsupportedFormatSkipped(schemaPath: string, newDataPath: string, env: Environment)
    requires env.schemaExists && env.dataExists && env.tfdvInstalled && env.schemaParseError.None?
    requires !IsTfRecordPath(newDataPath)
    ensures DetectDrift(schemaPath, newDataPath, env).status == Skipped
    ensures Text.Contains(DetectDrift(schemaPath, newDataPath, env).message, "non-TFRecord")
    ensures ExitCode(DetectDrift(schemaPath, newDataPath, env)) == 0
  {
    Text.Sandwich("Drift detection skipped: ", "non-TFRecord", UnsupportedFormatTail());
  }

  /** Without the validation library even a TFRecord file is skipped, never an error. */
  lemma NoLibrarySkips(schemaPath: string, newDataPath: string, env: Environment)
    requires env.schemaExists && env.dataExists && !env.tfdvInstalled
    ensures DetectDrift(schemaPath, newDataPath, env) == DriftReport(Skipped, NotInstalledMessage(), None, None)
    ensures ExitCode(DetectDrift(schemaPath, newDataPath, env)) == 0
  {
  }

  /** A ".csv" path is not a TFRecord path. */
  lemma CsvNotTfRecord()
    ensures !IsTfRecordPath("data.csv")
  {
    var s := "data.csv";
    assert s[|s| - 3..] == ".csv"[1..];
    assert s[|s| - 1] == 'v';
  }

  /** Two anomalies give the "drift_detected" status and a score of 2.0. */
  lemma TwoAnomalies()
    ensures AnomalyReport(map["feat1" := "drift", "feat2" := "drift"]).status == DriftDetected
    ensures AnomalyReport(map["feat1" := "drift", "feat2" := "drift"]).driftScore == Some(2.0)
  {
    var m := map["feat1" := "drift", "feat2" := "drift"];
    assert "feat1"[4] != "feat2"[4];
    assert m.Keys == {"feat1", "feat2"};
    assert |m| == 2;
  }
}
