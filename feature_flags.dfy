/**
 * Application-wide feature toggles read from the environment: each flag `f` is on when
 * the variable `FF_<F>` (its value uppercased) holds, after trimming and lower-casing, one
 * of five truthy words; an unset variable counts as "false".  The environment is the
 * function `env` from variable names to their values (`None` when unset).
 */
module FeatureFlags {
  import opened Wrappers
  import Text

  datatype FeatureFlag =
    | EnsembleModel | UncertaintyQuantification | CrossValidation | Benchmarking
    | DicomSupport | FhirIntegration | AuditLogging | DataAnonymization
    | WakeWordDetection | MultilingualVoice | MedicalVocabulary | NoiseHandling
    | AdvancedHeatmap | WorklistManagement | BatchProcessing | MobilePwa

  /** The enumeration's declaration order. */
  function AllFlags(): seq<FeatureFlag>
  {
    [ EnsembleModel, UncertaintyQuantification, CrossValidation, Benchmarking,
      DicomSupport, FhirIntegration, AuditLogging, DataAnonymization,
      WakeWordDetection, MultilingualVoice, MedicalVocabulary, NoiseHandling,
      AdvancedHeatmap, WorklistManagement, BatchProcessing, MobilePwa ]
  }

  /** The flag's value string. */
  function Value(f: FeatureFlag): string
  {
    match f
    case EnsembleModel => "ensemble_model"
    case UncertaintyQuantification => "uncertainty_quantification"
    case CrossValidation => "cross_validation"
    case Benchmarking => "benchmarking"
    case DicomSupport => "dicom_support"
    case FhirIntegration => "fhir_integration"
    case AuditLogging => "audit_logging"
    case DataAnonymization => "data_anonymization"
    case WakeWordDetection => "wake_word_detection"
    case MultilingualVoice => "multilingual_voice"
    case MedicalVocabulary => "medical_vocabulary"
    case NoiseHandling => "noise_handling"
    case AdvancedHeatmap => "advanced_heatmap"
    case WorklistManagement => "worklist_management"
    case BatchProcessing => "batch_processing"
    case MobilePwa => "mobile_pwa"
  }

  /** `FeatureFlag(value)`: the member with a given value string. */
  function FromValue(s: string): Option<FeatureFlag>
  {
    if s == Value(EnsembleModel) then Some(EnsembleModel)
    else if s == Value(UncertaintyQuantification) then Some(UncertaintyQuantification)
    else if s == Value(CrossValidation) then Some(CrossValidation)
    else if s == Value(Benchmarking) then Some(Benchmarking)
    else if s == Value(DicomSupport) then Some(DicomSupport)
    else if s == Value(FhirIntegration) then Some(FhirIntegration)
    else if s == Value(AuditLogging) then Some(AuditLogging)
    else if s == Value(DataAnonymization) then Some(DataAnonymization)
    else if s == Value(WakeWordDetection) then Some(WakeWordDetection)
    else if s == Value(MultilingualVoice) then Some(MultilingualVoice)
    else if s == Value(MedicalVocabulary) then Some(MedicalVocabulary)
    else if s == Value(NoiseHandling) then Some(NoiseHandling)
    else if s == Value(AdvancedHeatmap) then Some(AdvancedHeatmap)
    else if s == Value(WorklistManagement) then Some(WorklistManagement)
    else if s == Value(BatchProcessing) then Some(BatchProcessing)
    else if s == Value(MobilePwa) then Some(MobilePwa)
    else None
  }

  /** `FF_` followed by the uppercased value. */
  function EnvKey(f: FeatureFlag): string
  {
    "FF_" + Text.Upper(Value(f))
  }

  const TruthyWords: seq<string> := ["true", "1", "yes", "on", "enabled"]

  /** `os.getenv(key, "false").strip().lower() in (...)`. */
  function Enabled(raw: Option<string>): bool
  {
    Text.Lower(Text.Strip(raw.GetOr("false"))) in TruthyWords
  }

  class Flags {
    var flags: map<FeatureFlag, bool>

    constructor (env: string -> Option<string>)
      ensures forall f :: f in flags && flags[f] == Enabled(env(EnvKey(f)))
    {
      flags := map[];
      new;
      Reload(env);
    }

    /** `reload()`: clear the table, then set every member in declaration order. */
    method Reload(env: string -> Option<string>)
      modifies this
      ensures forall f :: f in flags && flags[f] == Enabled(env(EnvKey(f)))
    {
      flags := map[];
      SetEach(AllFlags(), f => Enabled(env(EnvKey(f))));
      EveryFlagListed();
    }

    /**
     * The loop of `reload` over the members `all`, starting from an empty table; `enabled`
     * is what the environment says about one member.
     */
    method SetEach(all: seq<FeatureFlag>, enabled: FeatureFlag -> bool)
      requires flags == map[]
      modifies this
      ensures forall f :: f in flags <==> f in all
      ensures forall f :: f in flags ==> flags[f] == enabled(f)
    {
      var i := 0;
      while i < |all|
        invariant 0 <= i <= |all|
        invariant forall f :: f in flags <==> f in all[..i]
        invariant forall f :: f in flags ==> flags[f] == enabled(f)
      {
        assert forall f :: f in all[..i + 1] <==> f in all[..i] || f == all[i];
        flags := flags[all[i] := enabled(all[i])];
        i := i + 1;
      }
      assert all[..i] == all;
    }

    /** `is_enabled(flag)`: the stored value, or false for a flag not in the table. */
    function IsEnabled(f: FeatureFlag): (b: bool)
      reads this
      ensures f !in flags ==> !b
      ensures f in flags ==> b == flags[f]
    {
      if f in flags then flags[f] else false
    }

    /** `get_all_flags()`: every entry keyed by its value string. */
    function GetAllFlags(): (r: map<string, bool>)
      reads this
      ensures forall f :: f in flags ==> Value(f) in r && r[Value(f)] == flags[f]
      ensures forall s :: s in r ==> FromValue(s).Some? && FromValue(s).value in flags
    {
      ValuesInvertible();
      map s | s in (set f | f in flags :: Value(f)) :: flags[FromValue(s).value]
    }
  }

  /** `check_flag(flag)` on the process-wide instance. */
  function CheckFlag(instance: Flags, f: FeatureFlag): bool
    reads instance
  {
    instance.IsEnabled(f)
  }

  /** On an instance loaded from `env`, a flag is on exactly when its FF_ variable is truthy. */
  lemma CheckFlagFromEnvironment(instance: Flags, env: string -> Option<string>, f: FeatureFlag)
    requires forall g :: g in instance.flags && instance.flags[g] == Enabled(env(EnvKey(g)))
    ensures CheckFlag(instance, f) <==> Text.Lower(Text.Strip(env(EnvKey(f)).GetOr("false"))) in TruthyWords
  {
  }

  /** The 503 detail of a gated endpoint whose flag is off. */
  datatype FeatureError = FeatureError(status: nat, error: string, message: string, featureFlag: string)

  function NotEnabled(f: FeatureFlag): FeatureError
  {
    FeatureError(503, "FEATURE_NOT_ENABLED",
      "Feature '" + Value(f) + "' is not enabled. " + "Set " + EnvKey(f) + "=true to enable.", Value(f))
  }

  /**
   * An endpoint gated by `require_feature(flag)`, whose own result is `handler()`: the
   * handler runs only when the flag is on.
   */
  method RequireFeature<T>(instance: Flags, f: FeatureFlag, handler: () -> T) returns (r: Result<T, FeatureError>)
    ensures !CheckFlag(instance, f) ==> r == Failure(NotEnabled(f))
    ensures CheckFlag(instance, f) ==> r == Success(handler())
    ensures r.Failure? ==> r.error.status == 503 && r.error.error == "FEATURE_NOT_ENABLED"
  {
    if !CheckFlag(instance, f) {
      return Failure(NotEnabled(f));
    }
    r := Success(handler());
  }

  /** Each value string names exactly its member. */
  lemma ValuesInvertible()
    ensures forall f :: FromValue(Value(f)) == Some(f)
  {
    forall f: FeatureFlag
      ensures FromValue(Value(f)) == Some(f)
    {
      ValueInverse(f);
    }
  }

  /** The members are tried in declaration order, two at a time. */
  lemma ValueInverse(f: FeatureFlag)
    ensures FromValue(Value(f)) == Some(f)
  {
    if f.EnsembleModel? || f.UncertaintyQuantification? {
      EnsembleValuesInverse(f);
    } else if f.CrossValidation? || f.Benchmarking? {
      ValidationValuesInverse(f);
    } else if f.DicomSupport? || f.FhirIntegration? {
      DicomValuesInverse(f);
    } else if f.AuditLogging? || f.DataAnonymization? {
      AuditValuesInverse(f);
    } else if f.WakeWordDetection? || f.MultilingualVoice? {
      WakeWordValuesInverse(f);
    } else if f.MedicalVocabulary? || f.NoiseHandling? {
      VocabularyValuesInverse(f);
    } else if f.AdvancedHeatmap? || f.WorklistManagement? {
      HeatmapValuesInverse(f);
    } else {
      BatchValuesInverse(f);
    }
  }

  lemma EnsembleValuesInverse(f: FeatureFlag)
    requires f.EnsembleModel? || f.UncertaintyQuantification?
    ensures FromValue(Value(f)) == Some(f)
  {
  }

  lemma ValidationValuesInverse(f: FeatureFlag)
    requires f.CrossValidation? || f.Benchmarking?
    ensures FromValue(Value(f)) == Some(f)
  {
  }

  lemma DicomValuesInverse(f: FeatureFlag)
    requires f.DicomSupport? || f.FhirIntegration?
    ensures FromValue(Value(f)) == Some(f)
  {
  }

  lemma AuditValuesInverse(f: FeatureFlag)
    requires f.AuditLogging? || f.DataAnonymization?
    ensures FromValue(Value(f)) == Some(f)
  {
  }

  lemma WakeWordValuesInverse(f: FeatureFlag)
    requires f.WakeWordDetection? || f.MultilingualVoice?
    ensures FromValue(Value(f)) == Some(f)
  {
  }

  lemma VocabularyValuesInverse(f: FeatureFlag)
    requires f.MedicalVocabulary? || f.NoiseHandling?
    ensures FromValue(Value(f)) == Some(f)
  {
  }

  lemma HeatmapValuesInverse(f: FeatureFlag)
    requires f.AdvancedHeatmap? || f.WorklistManagement?
    ensures FromValue(Value(f)) == Some(f)
  {
  }

  lemma BatchValuesInverse(f: FeatureFlag)
    requires f.BatchProcessing? || f.MobilePwa?
    ensures FromValue(Value(f)) == Some(f)
  {
  }

  lemma FalseIsNormal()
    ensures Text.Lower(Text.Strip("false")) == "false"
  {
    Text.StripUnspaced("false");
    FalseLowered();
  }

  lemma FalseLowered()
    ensures Text.Lower("false") == "false"
  {
  }

  lemma PaddedYesNormal()
    ensures Text.Lower(Text.Strip(" Yes ")) == "yes"
  {
    Text.StripPadded("Yes");
    YesLowered();
  }

  lemma YesLowered()
    ensures Text.Lower("Yes") == "yes"
  {
  }

  /** Without the variable the flag is off. */
  lemma UnsetIsOff()
    ensures !Enabled(None)
  {
    FalseIsNormal();
  }

  /** Surrounding whitespace and case do not matter: " Yes " turns a flag on. */
  lemma PaddedYesIsOn()
    ensures Enabled(Some(" Yes "))
  {
    PaddedYesNormal();
    assert TruthyWords[2] == "yes";
  }

  /** The declaration order lists every member. */
  lemma EveryFlagListed()
    ensures forall f :: f in AllFlags()
  {
    forall f: FeatureFlag
      ensures f in AllFlags()
    {
      var all := AllFlags();
      match f
      case EnsembleModel => assert all[0] == f;
      case UncertaintyQuantification => assert all[1] == f;
      case CrossValidation => assert all[2] == f;
      case Benchmarking => assert all[3] == f;
      case DicomSupport => assert all[4] == f;
      case FhirIntegration => assert all[5] == f;
      case AuditLogging => assert all[6] == f;
      case DataAnonymization => assert all[7] == f;
      case WakeWordDetection => assert all[8] == f;
      case MultilingualVoice => assert all[9] == f;
      case MedicalVocabulary => assert all[10] == f;
      case NoiseHandling => assert all[11] == f;
      case AdvancedHeatmap => assert all[12] == f;
      case WorklistManagement => assert all[13] == f;
      case BatchProcessing => assert all[14] == f;
      case MobilePwa => assert all[15] == f;
    }
  }

  /** The key for the ensemble flag. */
  lemma EnsembleKey()
    ensures EnvKey(EnsembleModel) == "FF_ENSEMBLE_MODEL"
  {
  }
}
