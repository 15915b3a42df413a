/**
 * The condition records of the grounding knowledge base, as stored in the source table,
 * and the generic record used for labels the table does not cover.
 */
module ConditionRecords {
  import opened Wrappers
  import Text

  /** A condition record; fallback records carry no symptoms and no treatment. */
  datatype ConditionInfo = ConditionInfo(
    description: string,
    radiologicalFeatures: seq<string>,
    typicalLocation: string,
    severity: string,
    severityLevel: Option<int>,
    nextSteps: string,
    differential: seq<string>,
    source: string,
    commonSymptoms: Option<seq<string>>,
    standardTreatment: Option<string>)

  function NormalLung(): ConditionInfo {
    ConditionInfo(
      "No significant acute " + "pulmonary abnormalities " + "detected.",
      ["Clear bilateral lung fields", "Sharp costophrenic angles", "Normal cardiac " + "silhouette (CTR < 50%)",
       "Visible pulmonary " + "vascular markings", "No focal consolidation " + "or masses"],
      "N/A - findings indicate " + "normal anatomy",
      "None", Some(0),
      "No further imaging " + "required unless " + "clinical symptoms " + "persist. Correlate with " + "patient presentation.",
      [],
      "Standard Chest X-Ray " + "Normalcy Criteria",
      Some(["None (Asymptomatic " + "regarding radiologic " + "findings)"]),
      Some("No medical intervention " + "required."))
  }

  function NormalBone(): ConditionInfo {
    ConditionInfo(
      "No evidence of acute " + "fracture or dislocation.",
      ["Intact cortical margins", "Normal trabecular bone " + "pattern", "Preserved joint alignment",
       "No visible lucent " + "fracture lines", "No periosteal reaction"],
      "N/A - findings indicate " + "normal anatomy",
      "None", Some(0),
      "If clinical suspicion " + "for fracture remains " + "high, consider CT or " + "MRI for occult " + "injuries. Correlate " + "with mechanism of " + "injury.",
      [],
      "Standard Skeletal " + "Trauma Protocols",
      Some(["None (Asymptomatic " + "regarding radiologic " + "findings)"]),
      Some("No medical intervention " + "required."))
  }

  function NormalPneumonia(): ConditionInfo {
    ConditionInfo(
      "Classification shows " + "mixed features. Image " + "may represent " + "transitional state " + "(early or resolving " + "infection) or require " + "clarification.",
      ["Features are equivocal " + "(neither clearly normal " + "nor clearly abnormal)",
       "May represent " + "early/resolving disease " + "process",
       "Subtle findings that " + "require expert " + "interpretation",
       "Requires manual " + "radiologist review for " + "definitive " + "interpretation"],
      "Unspecified - requires " + "clinical correlation",
      "Indeterminate - " + "Requires Review", Some(1),
      "Recommend radiologist " + "review. Consider repeat " + "imaging in 48-72 hours " + "if clinically " + "indicated. Correlate " + "with symptoms, vital " + "signs, and laboratory " + "values.",
      ["Early pneumonia", "Resolving infection", "Atelectasis", "Artifact"],
      "VoxRay Classification " + "Uncertainty Protocol",
      Some(["Variable", "Mild cough", "Low-grade fever"]),
      Some("Clinical correlation " + "required to determine " + "necessity of treatment."))
  }

  function LungCancer(): ConditionInfo {
    ConditionInfo(
      "Suspicious pulmonary " + "finding requiring " + "urgent oncological " + "workup.",
      ["Solitary pulmonary " + "nodule or mass (>3cm " + "classified as mass)",
       "Spiculated or irregular " + "margins (higher " + "malignancy risk)",
       "Possible hilar or " + "mediastinal " + "lymphadenopathy",
       "May have associated " + "pleural effusion",
       "Possible chest wall invasion"],
      "Upper lobes more " + "commonly affected; can " + "present centrally " + "(squamous) or " + "peripherally " + "(adenocarcinoma)",
      "HIGH - Urgent " + "specialist referral " + "required", Some(3),
      "Urgent: CT chest with " + "contrast for " + "characterization. " + "PET-CT for staging if " + "confirmed. " + "Pulmonology/Oncology " + "referral. Tissue biopsy " + "for histological " + "diagnosis. Smoking " + "cessation counseling.",
      ["Primary lung cancer", "Metastatic disease", "Benign granuloma", "Hamartoma"],
      "Fleischner Society " + "Guidelines for " + "Pulmonary Nodules; NCCN " + "Lung Cancer Screening " + "Guidelines",
      Some(["Persistent cough", "Hemoptysis (coughing up " + "blood)", "Unexplained weight loss", "Chest pain", "Shortness of breath"]),
      Some("Treatment is " + "stage-dependent. " + "Options typically " + "include surgical " + "resection, " + "chemotherapy, radiation " + "therapy, immunotherapy, " + "and targeted drug " + "therapy."))
  }

  function Fractured(): ConditionInfo {
    ConditionInfo(
      "Disruption of bone " + "continuity consistent " + "with acute fracture.",
      ["Visible lucent fracture " + "line traversing cortex",
       "Cortical step-off or " + "discontinuity",
       "Displacement or " + "angulation if present",
       "Associated soft tissue " + "swelling",
       "Possible joint " + "involvement or extension"],
      "Location varies by " + "mechanism - common " + "sites include distal " + "radius (Colles'), hip " + "(femoral neck), ankle " + "(malleoli), and clavicle",
      "Moderate to High - " + "depends on location and " + "displacement", Some(2),
      "Orthopedic " + "consultation. " + "Immobilization " + "(splint/cast). CT if " + "complex fracture " + "pattern suspected. " + "Assess for " + "neurovascular " + "compromise. Pain " + "management.",
      ["Acute fracture", "Stress fracture", "Pathologic fracture"],
      "AO Foundation Fracture " + "Classification; Ottawa " + "Ankle/Knee Rules",
      Some(["Immediate pain", "Swelling", "Bruising", "Inability to bear " + "weight or move limb", "Deformity"]),
      Some("Immobilization " + "(splint/cast), pain " + "management, and " + "physical therapy. " + "Complex fractures may " + "require surgical " + "fixation (ORIF)."))
  }

  function Pneumonia(): ConditionInfo {
    ConditionInfo(
      "Inflammatory " + "consolidation of lung " + "parenchyma consistent " + "with infectious process.",
      ["Airspace consolidation " + "(areas of increased " + "opacity)",
       "Air bronchograms " + "(air-filled bronchi " + "visible within " + "consolidation)",
       "Silhouette sign (loss " + "of normal cardiac or " + "diaphragm border)",
       "Possible parapneumonic " + "pleural effusion",
       "May show lobar, " + "bronchopneumonia, or " + "interstitial pattern"],
      "Lower lobes commonly " + "affected; can be lobar " + "(single lobe), " + "bronchopneumonia " + "(patchy bilateral), or " + "interstitial pattern. " + "May be unilateral or " + "bilateral.",
      "Moderate - assess with " + "CURB-65 or PSI score " + "for disposition", Some(2),
      "CBC, CMP, blood " + "cultures if " + "febrile/septic. Sputum " + "culture if productive " + "cough. Empiric " + "antibiotics per local " + "guidelines (typically " + "macrolide or " + "fluoroquinolone for " + "CAP). Monitor oxygen " + "saturation. Consider CT " + "if complicated or " + "treatment failure.",
      ["Bacterial pneumonia", "Viral pneumonia", "Aspiration pneumonia", "Atypical pneumonia"],
      "IDSA/ATS " + "Community-Acquired " + "Pneumonia Guidelines " + "2019",
      Some(["High fever", "Chills", "Productive cough " + "(yellow/green sputum)", "Pleuritic chest pain", "Fatigue"]),
      Some("Antibiotics (for " + "bacterial causes), " + "rest, fluids, and " + "antipyretics. Severe " + "cases may require " + "hospitalization and " + "oxygen therapy."))
  }

  /** The fallback description, which quotes the label. */
  function FallbackDescription(rawLabel: string): (d: string)
    ensures Text.Contains(d, "'" + rawLabel + "'")
  {
    var pre := "Radiological finding ";
    var post := " detected. This " + "condition requires " + "specialist " + "interpretation.";
    Text.ContainsInfix(pre, "'" + rawLabel + "'", post);
    pre + ("'" + rawLabel + "'") + post
  }

  /** The fixed texts of the fallback record. */
  function FallbackFeatures(): seq<string>
  {
    ["Specific features " + "require radiologist " + "interpretation",
     "AI classification " + "confidence should be " + "noted",
     "Clinical correlation is " + "essential"]
  }

  function FallbackNextSteps(): string
  {
    "Recommend specialist " + "radiologist review for " + "definitive " + "interpretation. " + "Correlate with clinical " + "presentation and " + "patient history."
  }

  function FallbackSource(): string
  {
    "VoxRay General Protocol " + "(condition not in " + "primary knowledge base)"
  }

  /** `_get_fallback_info(label)`: the generic record that quotes the label. */
  function FallbackInfo(rawLabel: string): (r: ConditionInfo)
    ensures r.severityLevel == Some(1) && |r.differential| == 0
    ensures r.commonSymptoms.None? && r.standardTreatment.None?
    ensures Text.Contains(r.description, "'" + rawLabel + "'")
  {
    ConditionInfo(
      FallbackDescription(rawLabel), FallbackFeatures(), "Varies by presentation",
      "Clinical correlation " + "required", Some(1), FallbackNextSteps(), [], FallbackSource(), None, None)
  }

}

/**
 * The grounding knowledge base for the chat assistant: a fixed table of condition
 * records, the lookup that maps a raw classifier label onto one of them (exact, then
 * partial, then keyword match, then a generic fallback), and the prompt section built from
 * a record.
 */
module MedicalContext {
  import opened Wrappers
  import Text
  import Tables
  import Numbers
  import opened ConditionRecords

  const KnowledgeBaseVersion := "1.0.0"
  const LastUpdated := "2024-01"

  /** The keys of `CONDITION_DETAILS`, in declaration order. */
  const ConditionKeys: seq<string> := [
    "NORMAL_LUNG", "NORMAL_BONE", "NORMAL_PNEUMONIA", "LUNG_CANCER", "FRACTURED", "PNEUMONIA"
  ]

  /** The record stored under `ConditionKeys[i]`; an index past the table reads its last row. */
  function Details(i: nat): ConditionInfo
  {
    if i == 0 then NormalLung()
    else if i == 1 then NormalBone()
    else if i == 2 then NormalPneumonia()
    else if i == 3 then LungCancer()
    else if i == 4 then Fractured()
    else Pneumonia()
  }

  /** The keyword map of the last matching stage, in declaration order. */
  const KeywordMap: seq<(string, string)> := [
    ("NORMAL", "NORMAL_LUNG"),
    ("HEALTHY", "NORMAL_LUNG"),
    ("CLEAR", "NORMAL_LUNG"),
    ("FRACTURE", "FRACTURED"),
    ("BROKEN", "FRACTURED"),
    ("CANCER", "LUNG_CANCER"),
    ("TUMOR", "LUNG_CANCER"),
    ("MASS", "LUNG_CANCER"),
    ("NODULE", "LUNG_CANCER"),
    ("INFECTION", "PNEUMONIA"),
    ("CONSOLIDATION", "PNEUMONIA")
  ]

  /** The position in `ConditionKeys` of the key that keyword `j` leads to. */
  function KeywordTarget(j: nat): (i: nat)
    requires j < |KeywordMap|
    ensures i < |ConditionKeys| && ConditionKeys[i] == KeywordMap[j].1
  {
    if j <= 2 then 0 else if j <= 4 then 4 else if j <= 8 then 3 else 5
  }

  /** No key is listed twice. */
  lemma KeysDistinct()
    ensures forall i, j :: 0 <= i < j < |ConditionKeys| ==> ConditionKeys[i] != ConditionKeys[j]
  {
    assert ConditionKeys[0][7] != ConditionKeys[1][7];
    assert ConditionKeys[0][0] != ConditionKeys[3][0];
    assert ConditionKeys[1][0] != ConditionKeys[3][0];
    assert ConditionKeys[4][0] != ConditionKeys[5][0];
  }

  /** Upper-case, strip, drop a `digits_` prefix, and turn spaces and hyphens into underscores. */
  function CleanLabel(rawLabel: string): (c: string)
    ensures ' ' !in c && '-' !in c
  {
    Text.ReplaceChar(Text.ReplaceChar(Text.DropNumericPrefix(Text.Strip(Text.Upper(rawLabel))), ' ', '_'), '-', '_')
  }

  /** Either text contains the other. */
  predicate PartialMatch(key: string, clean: string)
  {
    Text.Contains(key, clean) || Text.Contains(clean, key)
  }

  /** The first key, in order, that partially matches `clean`. */
  function FirstPartial(keys: seq<string>, clean: string): (r: Option<nat>)
    ensures r.Some? ==> r.value < |keys| && PartialMatch(keys[r.value], clean)
    ensures r.Some? ==> forall j :: 0 <= j < r.value ==> !PartialMatch(keys[j], clean)
    ensures r.None? ==> forall j :: 0 <= j < |keys| ==> !PartialMatch(keys[j], clean)
  {
    if keys == [] then None
    else if PartialMatch(keys[0], clean) then Some(0)
    else match FirstPartial(keys[1..], clean)
      case None => None
      case Some(k) => Some(k + 1)
  }

  /** The position of the first keyword, in order, that occurs in `clean`. */
  function FirstKeyword(kws: seq<(string, string)>, clean: string): (r: Option<nat>)
    ensures r.Some? ==> r.value < |kws| && Text.Contains(clean, kws[r.value].0)
    ensures r.Some? ==> forall j :: 0 <= j < r.value ==> !Text.Contains(clean, kws[j].0)
    ensures r.None? ==> forall j :: 0 <= j < |kws| ==> !Text.Contains(clean, kws[j].0)
  {
    if kws == [] then None
    else if Text.Contains(clean, kws[0].0) then Some(0)
    else match FirstKeyword(kws[1..], clean)
      case None => None
      case Some(k) => Some(k + 1)
  }

  /** Some key partially matches `c`. */
  predicate AnyPartial(c: string)
  {
    exists j :: 0 <= j < |ConditionKeys| && PartialMatch(ConditionKeys[j], c)
  }

  /** Some keyword occurs in `c`. */
  predicate AnyKeyword(c: string)
  {
    exists j :: 0 <= j < |KeywordMap| && Text.Contains(c, KeywordMap[j].0)
  }

  /** Keyword `j` is the first keyword of the map that occurs in `c`. */
  predicate FirstKeywordIn(c: string, j: nat)
  {
    j < |KeywordMap| && Text.Contains(c, KeywordMap[j].0) &&
    forall i :: 0 <= i < j ==> !Text.Contains(c, KeywordMap[i].0)
  }

  /**
   * The matching stages for a cleaned label: an exact key wins; then the first key that
   * contains or is contained in it; then the key named by the first keyword it contains.
   */
  function Match(c: string): (r: Option<nat>)
    ensures r.Some? ==> r.value < |ConditionKeys|
    ensures c in ConditionKeys ==> r.Some? && ConditionKeys[r.value] == c
    ensures c !in ConditionKeys && AnyPartial(c) ==>
      r.Some? && PartialMatch(ConditionKeys[r.value], c) &&
      forall j :: 0 <= j < r.value ==> !PartialMatch(ConditionKeys[j], c)
    ensures c !in ConditionKeys && !AnyPartial(c) && AnyKeyword(c) ==>
      r.Some? && exists j: nat :: FirstKeywordIn(c, j) && ConditionKeys[r.value] == KeywordMap[j].1
    ensures r.None? <==> c !in ConditionKeys && !AnyPartial(c) && !AnyKeyword(c)
  {
    match Tables.IndexOf(ConditionKeys, c)
    case Some(i) => Some(i)
    case None =>
      match FirstPartial(ConditionKeys, c)
      case Some(k) => Some(k)
      case None =>
        match FirstKeyword(KeywordMap, c)
        case Some(j) => assert FirstKeywordIn(c, j); Some(KeywordTarget(j))
        case None => None
  }

  /** Which record a label resolves to: a table entry, or the fallback for a quoted label. */
  datatype Resolution = Entry(index: nat) | Fallback(quoted: string)

  /**
   * `get_condition_info` up to the record it returns; None stands for Python's None.  A
   * missing or empty label gives the fallback for "Unknown"; any other label is cleaned,
   * and a label no stage matches gives the fallback quoting the raw label.
   */
  function Resolve(rawLabel: Option<string>): (r: Resolution)
    ensures rawLabel == None || rawLabel == Some("") ==> r == Fallback("Unknown")
    ensures r.Entry? ==> r.index < |ConditionKeys|
    ensures rawLabel.Some? && rawLabel.value != "" ==>
      var c := CleanLabel(rawLabel.value);
      (r.Entry? ==> Match(c) == Some(r.index)) &&
      (r.Fallback? <==> c !in ConditionKeys && !AnyPartial(c) && !AnyKeyword(c)) &&
      (r.Fallback? ==> r.quoted == rawLabel.value)
  {
    if rawLabel.None? || rawLabel.value == "" then Fallback("Unknown")
    else
      match Match(CleanLabel(rawLabel.value))
      case Some(i) => Entry(i)
      case None => Fallback(rawLabel.value)
  }

  /** A label whose cleaned form some stage matches gets the record that stage chose. */
  lemma ResolveOfMatch(rawLabel: string, i: nat)
    requires rawLabel != "" && Match(CleanLabel(rawLabel)) == Some(i)
    ensures Resolve(Some(rawLabel)) == Entry(i)
  {
  }

  /** A label no stage matches gets the fallback that quotes it. */
  lemma FallbackStage(rawLabel: string)
    requires rawLabel != ""
    requires var c := CleanLabel(rawLabel); c !in ConditionKeys && !AnyPartial(c) && !AnyKeyword(c)
    ensures Resolve(Some(rawLabel)) == Fallback(rawLabel)
  {
  }

  /**
   * A non-empty label that cleans to the empty text (a bare `digits_` prefix, or only
   * spaces) gets the first record, NORMAL_LUNG: the empty text is part of every key, and
   * the emptiness test looks only at the raw label.
   */
  lemma EmptyCleanLabel(rawLabel: string)
    requires rawLabel != "" && CleanLabel(rawLabel) == ""
    ensures Resolve(Some(rawLabel)) == Entry(0)
  {
    EmptyInFirstKey();
    PartialMatchAt("", 0);
  }

  lemma EmptyInFirstKey()
    ensures "" !in ConditionKeys && PartialMatch(ConditionKeys[0], "")
  {
    Text.ContainsWitness(ConditionKeys[0], "", 0);
  }

  /** A key matches itself. */
  lemma ExactMatch(i: nat)
    requires i < |ConditionKeys|
    ensures Match(ConditionKeys[i]) == Some(i)
  {
    KeysDistinct();
  }

  /** A label that is no key matches the first key that contains it or that it contains. */
  lemma PartialMatchAt(c: string, k: nat)
    requires c !in ConditionKeys && k < |ConditionKeys| && PartialMatch(ConditionKeys[k], c)
    requires forall j :: 0 <= j < k ==> !PartialMatch(ConditionKeys[j], c)
    ensures Match(c) == Some(k)
  {
    var r := Match(c).value;
    assert r <= k && k <= r;
  }

  /** Failing both, it matches the key that the first keyword it contains leads to. */
  lemma KeywordMatchAt(c: string, j: nat)
    requires c !in ConditionKeys && !AnyPartial(c) && FirstKeywordIn(c, j)
    ensures Match(c) == Some(KeywordTarget(j))
  {
    var r := Match(c).value;
    var j': nat :| FirstKeywordIn(c, j') && ConditionKeys[r] == KeywordMap[j'].1;
    assert j' == j;
    KeysDistinct();
  }

  /** `get_condition_info(diagnosis_label)`: the record `Resolve` chooses. */
  function GetConditionInfo(rawLabel: Option<string>): ConditionInfo
  {
    match Resolve(rawLabel)
    case Entry(i) => Details(i)
    case Fallback(l) => FallbackInfo(l)
  }

  /**
   * A label no stage matches gets the generic record: severity level 1, no differential,
   * and a description quoting the label ("Unknown" for a missing or empty one).
   */
  lemma FallbackRecord(rawLabel: Option<string>)
    requires Resolve(rawLabel).Fallback?
    ensures GetConditionInfo(rawLabel).severityLevel == Some(1)
    ensures |GetConditionInfo(rawLabel).differential| == 0
    ensures GetConditionInfo(rawLabel).commonSymptoms.None?
    ensures Text.Contains(GetConditionInfo(rawLabel).description, "'" + Resolve(rawLabel).quoted + "'")
  {
  }

  /** Upper-case letters and underscores, starting with a letter: the form of every key. */
  predicate KeyForm(s: string)
  {
    |s| > 0 && Text.IsUpperLetter(s[0]) && forall i :: 0 <= i < |s| ==> Text.IsUpperLetter(s[i]) || s[i] == '_'
  }

  /** Upper-casing leaves a text in key form as it is. */
  lemma UpperOfKeyForm(s: string)
    requires KeyForm(s)
    ensures Text.Upper(s) == s
  {
  }

  /** Cleaning a label whose upper-case form is in key form only upper-cases it. */
  lemma CleanOfKeyForm(s: string)
    requires KeyForm(Text.Upper(s))
    ensures CleanLabel(s) == Text.Upper(s)
  {
    var u := Text.Upper(s);
    Text.StripUnspaced(u);
    assert Text.LeadingDigits(u) == 0;
    Text.ReplaceAbsent(u, ' ', '_');
    Text.ReplaceAbsent(u, '-', '_');
  }

  lemma {:induction false} LeadingDigitsOf(d: string, t: string)
    requires forall i :: 0 <= i < |d| ==> Text.IsDigit(d[i])
    requires |t| > 0 && !Text.IsDigit(t[0])
    ensures Text.LeadingDigits(d + t) == |d|
  {
    if d != [] {
      assert (d + t)[1..] == d[1..] + t;
      LeadingDigitsOf(d[1..], t);
    }
  }

  lemma UpperOfClassLabel(d: string, s: string)
    requires forall i :: 0 <= i < |d| ==> Text.IsDigit(d[i])
    ensures Text.Upper(d + "_" + s) == d + "_" + Text.Upper(s)
  {
    var w := d + "_" + s;
    var x := d + "_" + Text.Upper(s);
    forall i | 0 <= i < |w|
      ensures Text.Upper(w)[i] == x[i]
    {
      if i > |d| {
        assert w[i] == s[i - |d| - 1];
      }
    }
  }

  lemma DropOfClassLabel(d: string, u: string)
    requires |d| > 0 && forall i :: 0 <= i < |d| ==> Text.IsDigit(d[i])
    ensures Text.DropNumericPrefix(d + "_" + u) == u
  {
    assert d + "_" + u == d + ("_" + u);
    LeadingDigitsOf(d, "_" + u);
    assert (d + "_" + u)[|d| + 1..] == u;
  }

  /** A class label `digits_NAME` cleans to the upper-case name. */
  lemma CleanOfClassLabel(d: string, s: string)
    requires |d| > 0 && forall i :: 0 <= i < |d| ==> Text.IsDigit(d[i])
    requires KeyForm(Text.Upper(s))
    ensures CleanLabel(d + "_" + s) == Text.Upper(s)
  {
    var u := Text.Upper(s);
    UpperOfClassLabel(d, s);
    var x := d + "_" + u;
    Text.StripUnspaced(x);
    DropOfClassLabel(d, u);
    Text.ReplaceAbsent(u, ' ', '_');
    Text.ReplaceAbsent(u, '-', '_');
  }

  lemma UpperPadded()
    ensures Text.Upper(" Lung-Cancer ") == " " + "LUNG-CANCER" + " "
  {
  }

  lemma HyphensBecomeUnderscores()
    ensures Text.ReplaceChar("LUNG-CANCER", '-', '_') == "LUNG_CANCER"
  {
  }

  /** Surrounding spaces, letter case and hyphens are all normalised away. */
  lemma CleanOfPaddedHyphenated()
    ensures CleanLabel(" Lung-Cancer ") == "LUNG_CANCER"
  {
    UpperPadded();
    Text.StripPadded("LUNG-CANCER");
    var t := "LUNG-CANCER";
    assert Text.LeadingDigits(t) == 0;
    assert Text.DropNumericPrefix(t) == t;
    Text.ReplaceAbsent(t, ' ', '_');
    HyphensBecomeUnderscores();
  }

  /** The severity indicator for a severity level; a missing level counts as 1. */
  function SeverityIndicator(level: Option<int>): (s: string)
    ensures level.None? ==> s == "\U{1F7E1} " + "REVIEW NEEDED"
    ensures level.Some? && !(0 <= level.value <= 3) ==> s == "\U{26AA} UNKNOWN"
  {
    match level.GetOr(1)
    case 0 => "\U{1F7E2} NORMAL"
    case 1 => "\U{1F7E1} " + "REVIEW NEEDED"
    case 2 => "\U{1F7E0} MODERATE"
    case 3 => "\U{1F534} URGENT"
    case _ => "\U{26AA} UNKNOWN"
  }

  /** Distinct levels in 0..3 get distinct indicators. */
  lemma SeverityIndicatorsDistinct(a: int, b: int)
    requires 0 <= a <= 3 && 0 <= b <= 3 && a != b
    ensures SeverityIndicator(Some(a)) != SeverityIndicator(Some(b))
    ensures SeverityIndicator(Some(a)) != SeverityIndicator(Some(4))
  {
  }

  /** `', '.join(differential) if differential else 'N/A'` */
  function DifferentialText(d: seq<string>): (s: string)
    ensures d == [] ==> s == "N/A"
    ensures |d| == 1 ==> s == d[0]
  {
    if d == [] then "N/A" else Text.Join(d, ", ")
  }

  /** Each item on its own line, indented and bulleted. */
  function Bullets(items: seq<string>): string
  {
    Text.Join(seq(|items|, i requires 0 <= i < |items| => "    - " + items[i]), "\n")
  }

  /** The first line of the prompt section, after its leading newline. */
  function TitleLine(diagnosis: string): string
  {
    "=== SCAN " + "ANALYSIS " + "RESULTS " + "===\nDETECTED " + "CONDITION: " + diagnosis
  }

  /** The confidence line: a percentage with one decimal. */
  function ConfidenceLine(confidence: real): string
  {
    "AI CONFIDENCE: " + Numbers.FormatFixed(confidence, 1, Numbers.HalfEven) + "%"
  }

  /** The severity line: the indicator for the level, then the severity text. */
  function SeverityLine(info: ConditionInfo): string
  {
    "SEVERITY: " + SeverityIndicator(info.severityLevel) + " - " + info.severity
  }

  /** The closing instructions of the prompt section. */
  function Instructions(): string {
    "CRITICAL " + "INSTRUCTIONS " + "FOR GENERATING " + "RESPONSES:\n"
    + "1. USE THE " + "VERIFIED " + "INFORMATION " + "ABOVE to answer " + "questions " + "accurately.\n"
    + "2. SAY " + "\"typically " + "presents with\" " + "NOT \"I can " + "see\" (you " + "cannot see " + "specific " + "locations).\n"
    + "3. When asked " + "about " + "findings/indicators " + "- Reference " + "TYPICAL " + "RADIOLOGICAL " + "FEATURES.\n"
    + "4. When asked " + "about location " + "- Reference " + "COMMON " + "ANATOMICAL " + "LOCATION.\n"
    + "5. When asked " + "about next " + "steps - " + "Reference " + "RECOMMENDED " + "NEXT STEPS.\n"
    + "6. ALWAYS " + "recommend " + "professional " + "consultation " + "for treatment " + "decisions.\n"
    + "7. DO NOT " + "invent specific " + "findings not " + "listed above.\n"
  }

  /** The remaining sections, from the description to the closing instructions. */
  function Body(info: ConditionInfo): string
  {
    "\nCONDITION " + "DESCRIPTION:\n" + info.description
      + "\n\nTYPICAL " + "RADIOLOGICAL " + "FEATURES:\n" + Bullets(info.radiologicalFeatures)
      + "\n\nCOMMON " + "ANATOMICAL " + "LOCATION:\n" + info.typicalLocation
      + "\n\nDIFFERENTIAL " + "CONSIDERATIONS:\n" + DifferentialText(info.differential)
      + "\n\nRECOMMENDED " + "NEXT STEPS:\n" + info.nextSteps
      + "\n\nTYPICAL " + "SYMPTOMS " + "(General " + "Knowledge):\n" + Bullets(info.commonSymptoms.GetOr([]))
      + "\n\nSTANDARD " + "TREATMENT " + "OPTIONS " + "(General " + "Knowledge):\n" + info.standardTreatment.GetOr("N/A")
      + "\n\nREFERENCE: " + info.source
      + "\nKNOWLEDGE " + "BASE VERSION: " + KnowledgeBaseVersion + " (Updated: " + LastUpdated + ")"
      + "\n=== END SCAN " + "RESULTS ===\n\n"
      + Instructions()
  }

  /** Three newline-terminated lines at the head of a text. */
  lemma LinesAtHead(title: string, conf: string, sev: string, rest: string)
    ensures var s := "\n" + title + "\n" + conf + "\n" + sev + "\n" + rest;
      Text.StartsWith(s, "\n" + title + "\n") &&
      Text.Contains(s, "\n" + conf + "\n") && Text.Contains(s, "\n" + sev + "\n")
  {
    var s := "\n" + title + "\n" + conf + "\n" + sev + "\n" + rest;
    assert s[..|title| + 2] == "\n" + title + "\n";
    assert s == "\n" + title + ("\n" + conf + "\n") + (sev + "\n" + rest);
    Text.ContainsInfix("\n" + title, "\n" + conf + "\n", sev + "\n" + rest);
    assert s == "\n" + title + "\n" + conf + ("\n" + sev + "\n") + rest;
    Text.ContainsInfix("\n" + title + "\n" + conf, "\n" + sev + "\n", rest);
  }

  /**
   * `format_context_for_prompt(info, diagnosis, confidence)`: the prompt section opens with
   * the detected condition, then the confidence with one decimal, then the severity line,
   * each on a line of its own.
   */
  function FormatContextForPrompt(info: ConditionInfo, diagnosis: string, confidence: real): (s: string)
    ensures Text.StartsWith(s, "\n" + TitleLine(diagnosis) + "\n")
    ensures Text.Contains(s, "\n" + ConfidenceLine(confidence) + "\n")
    ensures Text.Contains(s, "\n" + SeverityLine(info) + "\n")
  {
    LinesAtHead(TitleLine(diagnosis), ConfidenceLine(confidence), SeverityLine(info), Body(info));
    "\n" + TitleLine(diagnosis) + "\n" + ConfidenceLine(confidence) + "\n" + SeverityLine(info) + "\n" + Body(info)
  }

  datatype KnowledgeBaseInfo = KnowledgeBaseInfo(version: string, lastUpdated: string, conditionsCount: nat, conditions: seq<string>)

  /** `get_knowledge_base_info()` */
  function GetKnowledgeBaseInfo(): KnowledgeBaseInfo
  {
    KnowledgeBaseInfo(KnowledgeBaseVersion, LastUpdated, |ConditionKeys|, ConditionKeys)
  }

  /**
   * The knowledge-base summary counts the table and lists its keys in declaration order;
   * each listed condition, asked for by name, finds its own record, since keys need no
   * cleaning.
   */
  lemma KnowledgeBaseInfoListsKeys()
    ensures GetKnowledgeBaseInfo().conditionsCount == |GetKnowledgeBaseInfo().conditions| == 6
    ensures GetKnowledgeBaseInfo().conditions == ConditionKeys
    ensures GetKnowledgeBaseInfo().version == "1.0.0" && GetKnowledgeBaseInfo().lastUpdated == "2024-01"
    ensures forall i :: 0 <= i < |ConditionKeys| ==> Resolve(Some(ConditionKeys[i])) == Entry(i)
  {
    forall i | 0 <= i < |ConditionKeys|
      ensures Resolve(Some(ConditionKeys[i])) == Entry(i)
    {
      var k := ConditionKeys[i];
      KeyFormOfKey(i);
      UpperOfKeyForm(k);
      CleanOfKeyForm(k);
      ExactMatch(i);
      ResolveOfMatch(k, i);
    }
  }

  lemma KeyFormOfKey(i: nat)
    requires i < |ConditionKeys|
    ensures KeyForm(ConditionKeys[i])
  {
  }
}
