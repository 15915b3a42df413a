/**
 * The HL7 FHIR R4 export of a diagnosis: a `DiagnosticReport` resource with status
 * "final", the patient as subject, the narrative conclusion and, for the three findings
 * that have one, a SNOMED CT coding as `conclusionCode`.
 */
module Fhir {
  import opened Wrappers

  const SnomedSystem := "http://snomed.info/sct"

  datatype Coding = Coding(system: string, code: string, display: string)
  datatype CodeableConcept = CodeableConcept(coding: seq<Coding>)
  datatype Reference = Reference(reference: string)
  datatype DiagnosticReport = DiagnosticReport(
    resourceType: string,
    status: string,
    subject: Reference,
    conclusion: string,
    conclusionCode: Option<seq<CodeableConcept>>)

  /** The diagnosis labels with a SNOMED CT concept. */
  predicate HasSnomed(diagnosis: string)
  {
    diagnosis == "06_PNEUMONIA" || diagnosis == "04_LUNG_CANCER" || diagnosis == "05_FRACTURED"
  }

  /** `diagnosis_to_snomed(diagnosis)`: the coding of a mapped label, otherwise `None`. */
  function DiagnosisToSnomed(diagnosis: string): (r: Option<Coding>)
    ensures r.Some? <==> HasSnomed(diagnosis)
    ensures r.Some? ==> r.value.system == SnomedSystem
  {
    if diagnosis == "06_PNEUMONIA" then Some(Coding(SnomedSystem, "233604007", "Pneumonia"))
    else if diagnosis == "04_LUNG_CANCER" then Some(Coding(SnomedSystem, "363346000", "Malignant neoplasm of lung"))
    else if diagnosis == "05_FRACTURED" then Some(Coding(SnomedSystem, "125605004", "Fracture of bone"))
    else None
  }

  /** `to_diagnostic_report(patient_ref, conclusion, diagnosis)`. */
  function ToDiagnosticReport(patientRef: string, conclusion: string, diagnosis: string): (r: DiagnosticReport)
    ensures r.resourceType == "DiagnosticReport" && r.status == "final"
    ensures r.subject.reference == patientRef && r.conclusion == conclusion
    ensures r.conclusionCode.Some? <==> HasSnomed(diagnosis)
    ensures r.conclusionCode.Some? ==>
      |r.conclusionCode.value| == 1 && |r.conclusionCode.value[0].coding| == 1 &&
      Some(r.conclusionCode.value[0].coding[0]) == DiagnosisToSnomed(diagnosis)
  {
    var snomed := DiagnosisToSnomed(diagnosis);
    DiagnosticReport("DiagnosticReport", "final", Reference(patientRef), conclusion,
      if snomed.Some? then Some([CodeableConcept([snomed.value])]) else None)
  }

  /** The three normal classes are reported without a coded conclusion. */
  lemma NormalClassesUncoded(patientRef: string, conclusion: string, diagnosis: string)
    requires diagnosis in ["01_NORMAL_LUNG", "02_NORMAL_BONE", "03_NORMAL_PNEUMONIA"]
    ensures ToDiagnosticReport(patientRef, conclusion, diagnosis).conclusionCode.None?
  {
  }
}
