/**
 * The X-ray upload panel of the clinical dashboard: a chosen image, its analysis result,
 * the short AI commentary that follows a successful analysis, and the explanation heatmap.
 * Each request is given as its outcome; calls back to the parent page are recorded in the
 * order they are made, and so are the alerts shown.
 */
module XRayPanel {
  import opened Wrappers
  import Text
  import Numbers

  datatype Severity = Low | Medium | High

  /** The severity badge's caption. */
  function SeverityLabel(s: Severity): string
  {
    match s
    case Low => "Low Severity"
    case Medium => "Medium Severity"
    case High => "High Severity"
  }

  /**
   * `getSeverityConfig(diagnosis)`: "NORMAL" anywhere in the upper-cased diagnosis wins,
   * then "PNEUMONIA"; everything else, a missing diagnosis included, is high.
   */
  function SeverityOf(diagnosis: Option<string>): (s: Severity)
    ensures s == Low <==> Text.Contains(Text.Upper(diagnosis.GetOr("")), "NORMAL")
    ensures s == Medium <==>
      !Text.Contains(Text.Upper(diagnosis.GetOr("")), "NORMAL")
      && Text.Contains(Text.Upper(diagnosis.GetOr("")), "PNEUMONIA")
  {
    var d := Text.Upper(diagnosis.GetOr(""));
    if Text.Contains(d, "NORMAL") then Low
    else if Text.Contains(d, "PNEUMONIA") then Medium
    else High
  }

  /** The shown name of a class label: a leading `digits_` dropped, other underscores as spaces. */
  function DisplayLabel(classLabel: string): (r: string)
    ensures '_' !in r
    ensures |r| == |Text.DropNumericPrefix(classLabel)|
    ensures forall i :: 0 <= i < |r| ==>
      r[i] == (if Text.DropNumericPrefix(classLabel)[i] == '_' then ' ' else Text.DropNumericPrefix(classLabel)[i])
  {
    Text.ReplaceChar(Text.DropNumericPrefix(classLabel), '_', ' ')
  }

  /** Without spaces in the label, turning the shown spaces back into underscores restores it. */
  lemma DisplayLabelInverse(classLabel: string)
    requires ' ' !in Text.DropNumericPrefix(classLabel)
    ensures Text.ReplaceChar(DisplayLabel(classLabel), ' ', '_') == Text.DropNumericPrefix(classLabel)
  {
    var d := Text.DropNumericPrefix(classLabel);
    var r := Text.ReplaceChar(DisplayLabel(classLabel), ' ', '_');
    forall i | 0 <= i < |d|
      ensures r[i] == d[i]
    {
      assert d[i] != ' ';
    }
  }

  datatype Prediction = Prediction(diagnosis: Option<string>, confidence: real)

  /** A failed request: the HTTP status when a response arrived, and the client's error code. */
  datatype HttpError = HttpError(status: Option<int>, code: string)

  /** The alert after a failed analysis. */
  function AnalyzeFailureMessage(e: HttpError): (m: string)
    ensures e.status == Some(401) ==> m == "Authentication required. " + "Please log in."
    ensures e.status == Some(503) ==> m == "AI Engine is warming up. " + "Please try again in 30 " + "seconds."
    ensures e.status != Some(401) && e.status != Some(503) && e.code == "ERR_NETWORK" ==>
      m == "Cannot connect to server. " + "Please check if the " + "backend is running."
    ensures e.status != Some(401) && e.status != Some(503) && e.code != "ERR_NETWORK" ==>
      m == "Analysis failed. Please " + "try again."
  {
    if e.status == Some(401) then "Authentication required. " + "Please log in."
    else if e.status == Some(503) then "AI Engine is warming up. " + "Please try again in 30 " + "seconds."
    else if e.code == "ERR_NETWORK" then "Cannot connect to server. " + "Please check if the " + "backend is running."
    else "Analysis failed. Please " + "try again."
  }

  /** The confidence as a percentage with one decimal, as `toFixed(1)` prints it. */
  function Percent(confidence: real): string
  {
    Numbers.FormatFixed(confidence * 100.0, 1, Numbers.HalfUp)
  }

  /** The name in the offline commentary: the shown label, or "Unknown" when that is empty or missing. */
  function FallbackName(diagnosis: Option<string>): (n: string)
    ensures diagnosis.None? ==> n == "Unknown"
    ensures diagnosis.Some? && DisplayLabel(diagnosis.value) != "" ==> n == DisplayLabel(diagnosis.value)
  {
    if diagnosis.Some? && DisplayLabel(diagnosis.value) != "" then DisplayLabel(diagnosis.value) else "Unknown"
  }

  function OfflineNotice(): string
  {
    "% confidence. AI Voice " + "Assistant is temporarily " + "offline. Please consult a " + "medical professional for " + "detailed interpretation."
  }

  /** The commentary shown when the chat request for it fails. */
  function FallbackAnalysis(p: Prediction): string
  {
    "Analysis complete: " + FallbackName(p.diagnosis) + " detected with " + Percent(p.confidence) + OfflineNotice()
  }

  datatype ImageFile = ImageFile(name: string)

  class Panel {
    var file: Option<ImageFile>
    var preview: Option<string>
    var result: Option<Prediction>
    var aiAnalysis: string
    var explainSrc: Option<string>
    var analyzing: bool
    var analyzingAI: bool
    var explaining: bool
    /** Every `onResultChange` call so far, oldest first. */
    var notified: seq<Option<Prediction>>
    /** Every alert shown so far, oldest first. */
    var alerts: seq<string>

    constructor ()
      ensures file.None? && preview.None? && result.None? && aiAnalysis == "" && explainSrc.None?
      ensures !analyzing && !analyzingAI && !explaining && notified == [] && alerts == []
    {
      file, preview, result := None, None, None;
      aiAnalysis := "";
      explainSrc := None;
      analyzing, analyzingAI, explaining := false, false, false;
      notified, alerts := [], [];
    }

    /**
     * `handleFileChange` and `handleDrop`: a new image resets the result and the commentary
     * and tells the parent there is no result; the explanation heatmap stays.
     */
    method ChooseFile(selected: Option<ImageFile>, objectUrl: string)
      modifies this
      ensures selected.None? ==>
        file == old(file) && preview == old(preview) && result == old(result)
        && aiAnalysis == old(aiAnalysis) && notified == old(notified)
      ensures selected.Some? ==> file == selected && preview == Some(objectUrl) && result.None? && aiAnalysis == ""
      ensures selected.Some? ==> notified == old(notified) + [None]
      ensures explainSrc == old(explainSrc) && alerts == old(alerts)
      ensures analyzing == old(analyzing) && analyzingAI == old(analyzingAI) && explaining == old(explaining)
    {
      if selected.Some? {
        file := selected;
        preview := Some(objectUrl);
        result := None;
        aiAnalysis := "";
        notified := notified + [None];
      }
    }

    /** `clearFile`: everything goes, the heatmap included. */
    method ClearFile()
      modifies this
      ensures file.None? && preview.None? && result.None? && explainSrc.None? && aiAnalysis == ""
      ensures notified == old(notified) + [None] && alerts == old(alerts)
      ensures analyzing == old(analyzing) && analyzingAI == old(analyzingAI) && explaining == old(explaining)
    {
      file := None;
      preview := None;
      result := None;
      explainSrc := None;
      aiAnalysis := "";
      notified := notified + [None];
    }

    /** A result picked in the history replaces the shown one and clears the commentary. */
    method SelectResult(selected: Option<Prediction>)
      modifies this
      ensures selected.Some? ==> result == selected && aiAnalysis == ""
      ensures selected.None? ==> result == old(result) && aiAnalysis == old(aiAnalysis)
      ensures file == old(file) && preview == old(preview) && notified == old(notified)
      ensures explainSrc == old(explainSrc) && alerts == old(alerts)
      ensures analyzing == old(analyzing) && analyzingAI == old(analyzingAI) && explaining == old(explaining)
    {
      if selected.Some? {
        result := selected;
        aiAnalysis := "";
      }
    }

    /**
     * `handleAnalyze`: without an image nothing happens.  A prediction is shown, passed to the
     * parent and followed by the commentary request (`commentary`, whose failure shows the
     * offline text); a failed prediction raises the matching alert.
     */
    method Analyze(response: Result<Prediction, HttpError>, commentary: Result<string, HttpError>)
      modifies this
      ensures old(file).None? ==>
        result == old(result) && aiAnalysis == old(aiAnalysis) && notified == old(notified) && alerts == old(alerts)
        && analyzing == old(analyzing) && analyzingAI == old(analyzingAI)
      ensures old(file).Some? && response.Success? ==>
        result == Some(response.value) && notified == old(notified) + [Some(response.value)]
        && alerts == old(alerts)
        && aiAnalysis == (if commentary.Success? then commentary.value else FallbackAnalysis(response.value))
      ensures old(file).Some? && response.Failure? ==>
        result == old(result) && aiAnalysis == "" && notified == old(notified)
        && alerts == old(alerts) + [AnalyzeFailureMessage(response.error)]
      ensures old(file).Some? ==> !analyzing
      ensures old(file).Some? && response.Success? ==> !analyzingAI
      ensures old(file).Some? && response.Failure? ==> analyzingAI == old(analyzingAI)
      ensures file == old(file) && preview == old(preview) && explainSrc == old(explainSrc)
      ensures explaining == old(explaining)
    {
      if file.None? {
        return;
      }
      analyzing := true;
      aiAnalysis := "";
      match response {
        case Success(data) =>
          result := Some(data);
          notified := notified + [Some(data)];
          GenerateAIAnalysis(data, commentary);
        case Failure(e) =>
          alerts := alerts + [AnalyzeFailureMessage(e)];
      }
      analyzing := false;
    }

    /** `generateAIAnalysis(data)`: the chat reply, or the offline text when the request fails. */
    method GenerateAIAnalysis(data: Prediction, commentary: Result<string, HttpError>)
      modifies this
      ensures aiAnalysis == (if commentary.Success? then commentary.value else FallbackAnalysis(data))
      ensures !analyzingAI
      ensures file == old(file) && result == old(result) && notified == old(notified)
      ensures alerts == old(alerts) && explainSrc == old(explainSrc) && analyzing == old(analyzing)
      ensures preview == old(preview) && explaining == old(explaining)
    {
      analyzingAI := true;
      match commentary {
        case Success(reply) => aiAnalysis := reply;
        case Failure(_) => aiAnalysis := FallbackAnalysis(data);
      }
      analyzingAI := false;
    }

    /** `handleExplain`: the heatmap as a PNG data URL, or an alert; nothing without an image. */
    method Explain(response: Result<string, HttpError>)
      modifies this
      ensures old(file).None? ==> explainSrc == old(explainSrc) && alerts == old(alerts) && explaining == old(explaining)
      ensures old(file).Some? && response.Success? ==>
        explainSrc == Some("data:image/png;base64," + response.value) && alerts == old(alerts)
      ensures old(file).Some? && response.Failure? ==>
        explainSrc.None? && alerts == old(alerts) + ["Explanation " + "generation failed."]
      ensures old(file).Some? ==> !explaining
      ensures file == old(file) && result == old(result) && notified == old(notified)
      ensures preview == old(preview) && aiAnalysis == old(aiAnalysis)
      ensures analyzing == old(analyzing) && analyzingAI == old(analyzingAI)
    {
      if file.None? {
        return;
      }
      explaining := true;
      explainSrc := None;
      match response {
        case Success(b64) => explainSrc := Some("data:image/png;base64," + b64);
        case Failure(_) => alerts := alerts + ["Explanation " + "generation failed."];
      }
      explaining := false;
    }
  }

  /** Every diagnosis gets exactly one severity, and "NORMAL" is checked before "PNEUMONIA". */
  lemma SeverityCases(diagnosis: Option<string>)
    ensures SeverityOf(diagnosis) == High <==>
      !Text.Contains(Text.Upper(diagnosis.GetOr("")), "NORMAL")
      && !Text.Contains(Text.Upper(diagnosis.GetOr("")), "PNEUMONIA")
  {
  }

  /** A missing diagnosis is high severity. */
  lemma MissingDiagnosisIsHigh()
    ensures SeverityOf(None) == High
  {
    var e: Option<string> := None;
    assert e.GetOr("") == "";
    assert Text.Upper("") == "";
    assert !Text.MatchAt("", "NORMAL", 0) && !Text.MatchAt("", "PNEUMONIA", 0);
  }

  lemma UpperOfNormalPneumonia()
    ensures Text.Upper("03_NORMAL_PNEUMONIA") == "03_NORMAL_PNEUMONIA"
  {
  }

  /** A label naming both, like "03_NORMAL_PNEUMONIA", is low severity because "NORMAL" comes first. */
  lemma NormalBeatsPneumonia()
    ensures SeverityOf(Some("03_NORMAL_PNEUMONIA")) == Low
  {
    var d := "03_NORMAL_PNEUMONIA";
    UpperOfNormalPneumonia();
    assert d[3..9] == "NORMAL";
    Text.ContainsWitness(d, "NORMAL", 3);
  }

  /** The offline commentary names the finding and its confidence. */
  lemma FallbackMentions(p: Prediction)
    ensures Text.StartsWith(FallbackAnalysis(p), "Analysis complete: " + FallbackName(p.diagnosis))
    ensures Text.Contains(FallbackAnalysis(p), " detected with " + Percent(p.confidence))
    ensures Text.EndsWith(FallbackAnalysis(p), OfflineNotice())
  {
    var a := "Analysis complete: " + FallbackName(p.diagnosis);
    var b := " detected with " + Percent(p.confidence);
    var c := OfflineNotice();
    assert FallbackAnalysis(p) == a + b + c;
    Text.Sandwich(a, b, c);
  }
}
