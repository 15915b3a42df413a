/**
 * The older upload panel of the single-page demo: severity, cleaned class names with a
 * short definition for each, and the chosen image with its result.  Severity and the
 * cleaning of class names are the ones of the dashboard's panel.
 */
module XRayCards {
  import opened Wrappers
  import Text
  import Tables
  import XRayPanel
  import MedicalContext

  /** The definition shown under each diagnosis, keyed by the upper-cased cleaned name. */
  function MedicalDefinitions(): seq<(string, string)>
  {
    [ ("PNEUMONIA", "Infection that inflames " + "air sacs in one or both " + "lungs, which may fill " + "with fluid."),
      ("NORMAL", "No significant " + "abnormalities detected " + "in the chest X-ray."),
      ("INFILTRATION", "A substance denser than " + "air, such as pus, " + "blood, or protein, " + "which lingers within " + "the parenchyma of the " + "lungs."),
      ("ATELECTASIS", "Complete or partial " + "collapse of the entire " + "lung or area (lobe) of " + "the lung."),
      ("EFFUSION", "A buildup of fluid " + "between the tissues " + "that line the lungs and " + "the chest."),
      ("NODULE", "A small abnormal growth " + "in the lung, often " + "benign but requires " + "monitoring."),
      ("PNEUMOTHORAX", "A collapsed lung. This " + "occurs when air leaks " + "into the space between " + "your lung and chest " + "wall."),
      ("CONSOLIDATION", "A region of normally " + "compressible lung " + "tissue that has filled " + "with liquid instead of " + "air.") ]
  }

  function GenericDefinition(): string
  {
    "Medical condition " + "detected in X-Ray " + "analysis."
  }

  /** The definition on a diagnosis card: the table's entry for the cleaned name, else the generic sentence. */
  function Definition(classLabel: string): (d: string)
    ensures Text.Upper(XRayPanel.DisplayLabel(classLabel)) !in Tables.Keys(MedicalDefinitions()) ==> d == GenericDefinition()
    ensures Text.Upper(XRayPanel.DisplayLabel(classLabel)) in Tables.Keys(MedicalDefinitions()) ==>
      (Text.Upper(XRayPanel.DisplayLabel(classLabel)), d) in MedicalDefinitions()
  {
    Tables.Lookup(MedicalDefinitions(), Text.Upper(XRayPanel.DisplayLabel(classLabel))).GetOr(GenericDefinition())
  }

  datatype ImageFile = ImageFile(name: string)

  class Panel {
    var file: Option<ImageFile>
    var preview: Option<string>
    var result: Option<XRayPanel.Prediction>
    var analyzing: bool
    var notified: seq<Option<XRayPanel.Prediction>>
    var alerts: seq<string>

    constructor ()
      ensures file.None? && preview.None? && result.None? && !analyzing && notified == [] && alerts == []
    {
      file, preview, result := None, None, None;
      analyzing := false;
      notified, alerts := [], [];
    }

    /** `handleFileChange` and `handleDrop`: a new image clears the result and tells the parent. */
    method ChooseFile(selected: Option<ImageFile>, objectUrl: string)
      modifies this
      ensures selected.None? ==>
        file == old(file) && preview == old(preview) && result == old(result) && notified == old(notified)
      ensures selected.Some? ==> file == selected && preview == Some(objectUrl) && result.None?
      ensures selected.Some? ==> notified == old(notified) + [None]
      ensures alerts == old(alerts) && analyzing == old(analyzing)
    {
      if selected.Some? {
        file := selected;
        preview := Some(objectUrl);
        result := None;
        notified := notified + [None];
      }
    }

    /** `clearFile`: image, preview and result all go. */
    method ClearFile()
      modifies this
      ensures file.None? && preview.None? && result.None?
      ensures notified == old(notified) + [None] && alerts == old(alerts) && analyzing == old(analyzing)
    {
      file, preview, result := None, None, None;
      notified := notified + [None];
    }

    /** A result picked in the history replaces the shown one; the preview stays. */
    method SelectResult(selected: Option<XRayPanel.Prediction>)
      modifies this
      ensures selected.Some? ==> result == selected
      ensures selected.None? ==> result == old(result)
      ensures file == old(file) && preview == old(preview) && notified == old(notified)
      ensures alerts == old(alerts) && analyzing == old(analyzing)
    {
      if selected.Some? {
        result := selected;
      }
    }

    /** `handleAnalyze`: any failure shows the same alert; nothing happens without an image. */
    method Analyze(response: Result<XRayPanel.Prediction, XRayPanel.HttpError>)
      modifies this
      ensures old(file).None? ==>
        result == old(result) && notified == old(notified) && alerts == old(alerts) && analyzing == old(analyzing)
      ensures old(file).Some? && response.Success? ==>
        result == Some(response.value) && notified == old(notified) + [Some(response.value)] && alerts == old(alerts)
      ensures old(file).Some? && response.Failure? ==>
        result == old(result) && notified == old(notified) && alerts == old(alerts) + ["Analysis failed. Ensure " + "backend is running."]
      ensures old(file).Some? ==> !analyzing
      ensures file == old(file) && preview == old(preview)
    {
      if file.None? {
        return;
      }
      analyzing := true;
      match response {
        case Success(data) =>
          result := Some(data);
          notified := notified + [Some(data)];
        case Failure(_) =>
          alerts := alerts + ["Analysis failed. Ensure " + "backend is running."];
      }
      analyzing := false;
    }
  }

  /** No key of the table has a space in it. */
  lemma KeysWithoutSpaces(i: nat)
    requires i < |MedicalDefinitions()|
    ensures ' ' !in MedicalDefinitions()[i].0
  {
    var ks := Tables.Keys(MedicalDefinitions());
    assert ks == ["PNEUMONIA", "NORMAL", "INFILTRATION", "ATELECTASIS", "EFFUSION", "NODULE", "PNEUMOTHORAX", "CONSOLIDATION"];
    assert ks[i] == MedicalDefinitions()[i].0;
  }

  /** A cleaned name of several words, such as "Lung Cancer", always gets the generic sentence. */
  lemma MultiWordIsGeneric(classLabel: string)
    requires ' ' in XRayPanel.DisplayLabel(classLabel)
    ensures Definition(classLabel) == GenericDefinition()
  {
    var u := Text.Upper(XRayPanel.DisplayLabel(classLabel));
    var k :| 0 <= k < |XRayPanel.DisplayLabel(classLabel)| && XRayPanel.DisplayLabel(classLabel)[k] == ' ';
    assert u[k] == ' ';
    if u in Tables.Keys(MedicalDefinitions()) {
      var i :| 0 <= i < |MedicalDefinitions()| && MedicalDefinitions()[i].0 == u;
      KeysWithoutSpaces(i);
    }
  }

  lemma PneumoniaLabel()
    ensures Text.Upper(XRayPanel.DisplayLabel("02_PNEUMONIA")) == "PNEUMONIA"
  {
    PneumoniaPrefixDropped();
    Text.ReplaceAbsent("PNEUMONIA", '_', ' ');
    PneumoniaIsUpper();
  }

  lemma PneumoniaPrefixDropped()
    ensures Text.DropNumericPrefix("02_PNEUMONIA") == "PNEUMONIA"
  {
    assert "02_PNEUMONIA" == "02" + "_" + "PNEUMONIA";
    MedicalContext.DropOfClassLabel("02", "PNEUMONIA");
  }

  lemma PneumoniaIsUpper()
    ensures Text.Upper("PNEUMONIA") == "PNEUMONIA"
  {
  }

  /** The class "02_PNEUMONIA" is shown as "PNEUMONIA" with the table's first definition. */
  lemma PneumoniaDefinition()
    ensures Definition("02_PNEUMONIA") == MedicalDefinitions()[0].1
  {
    PneumoniaLabel();
    var t := MedicalDefinitions();
    assert t[0].0 == "PNEUMONIA";
    assert Tables.Lookup(t, "PNEUMONIA") == Some(t[0].1);
  }
}
