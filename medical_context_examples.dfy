/**
 * Worked resolutions: classifier labels, fragments, keywords and unknown labels, each
 * resolved through the stages of `MedicalContext.Resolve`.
 */
module MedicalContextExamples {
  import opened Wrappers
  import Text
  import opened MedicalContext
  import ModelServer

  /** A classifier label `digits_KEY` resolves to the record of KEY. */
  lemma ClassLabelOfKey(d: string, i: nat)
    requires |d| > 0 && forall j :: 0 <= j < |d| ==> Text.IsDigit(d[j])
    requires i < |ConditionKeys|
    ensures Resolve(Some(d + "_" + ConditionKeys[i])) == Entry(i)
  {
    var k := ConditionKeys[i];
    KeyFormOfKey(i);
    UpperOfKeyForm(k);
    CleanOfClassLabel(d, k);
    ExactMatch(i);
    ResolveOfMatch(d + "_" + k, i);
  }

  /** The class name at `i` is its two-digit position, an underscore and the key at `i`. */
  lemma ClassNameParts(i: nat)
    requires i < 6
    ensures ModelServer.ClassNames[i] == ['0', Digit(i)] + "_" + ConditionKeys[i]
  {
    match i
    case 0 => assert ModelServer.ClassNames[0] == "01" + "_" + ConditionKeys[0];
    case 1 => assert ModelServer.ClassNames[1] == "02" + "_" + ConditionKeys[1];
    case 2 => assert ModelServer.ClassNames[2] == "03" + "_" + ConditionKeys[2];
    case 3 => assert ModelServer.ClassNames[3] == "04" + "_" + ConditionKeys[3];
    case 4 => assert ModelServer.ClassNames[4] == "05" + "_" + ConditionKeys[4];
    case 5 => assert ModelServer.ClassNames[5] == "06" + "_" + ConditionKeys[5];
  }

  function Digit(i: nat): (c: char)
    requires i < 6
    ensures Text.IsDigit(c)
  {
    ('1' as int + i) as char
  }

  /** Every class the model server reports finds its own record, in the same order. */
  lemma ClassNamesResolveInOrder()
    ensures forall i :: 0 <= i < |ModelServer.ClassNames| ==> Resolve(Some(ModelServer.ClassNames[i])) == Entry(i)
  {
    forall i | 0 <= i < |ModelServer.ClassNames|
      ensures Resolve(Some(ModelServer.ClassNames[i])) == Entry(i)
    {
      ClassNameParts(i);
      ClassLabelOfKey(['0', Digit(i)], i);
    }
  }

  /** Surrounding spaces, letter case and hyphens do not stop an exact match. */
  lemma PaddedHyphenatedLabel()
    ensures Resolve(Some(" Lung-Cancer ")) == Entry(3)
  {
    CleanOfPaddedHyphenated();
    LungCancerKey();
    CleansToKey(" Lung-Cancer ", 3);
  }

  lemma LungCancerKey()
    ensures ConditionKeys[3] == "LUNG_CANCER"
  {
  }

  /** A label that cleans to the key at `i` resolves to that key's record. */
  lemma CleansToKey(rawLabel: string, i: nat)
    requires rawLabel != "" && i < |ConditionKeys| && CleanLabel(rawLabel) == ConditionKeys[i]
    ensures Resolve(Some(rawLabel)) == Entry(i)
  {
    ExactMatch(i);
    ResolveOfMatch(rawLabel, i);
  }

  lemma LungLabel()
    ensures CleanLabel("lung") == "LUNG"
  {
    assert Text.Upper("lung") == "LUNG";
    CleanOfKeyForm("lung");
  }

  lemma CancerLabel()
    ensures CleanLabel("cancer") == "CANCER"
  {
    assert Text.Upper("cancer") == "CANCER";
    CleanOfKeyForm("cancer");
  }

  /** The partial stage: "lung" is part of the first key. */
  lemma LungFragment()
    ensures Resolve(Some("lung")) == Entry(0)
  {
    LungLabel();
    assert Text.MatchAt(ConditionKeys[0], "LUNG", 7);
    Text.ContainsWitness(ConditionKeys[0], "LUNG", 7);
    PartialMatchAt("LUNG", 0);
    ResolveOfMatch("lung", 0);
  }

  lemma CancerMissesEarlierKeys()
    ensures forall j :: 0 <= j < 3 ==> !PartialMatch(ConditionKeys[j], "CANCER")
  {
    var c := "CANCER";
    forall j | 0 <= j < 3
      ensures !PartialMatch(ConditionKeys[j], c)
    {
      Text.AbsentChar(ConditionKeys[j], c, 'C');
      Text.AbsentChar(c, ConditionKeys[j], ConditionKeys[j][1]);
    }
  }

  /** The partial stage: "cancer" is part of LUNG_CANCER and of no earlier key. */
  lemma CancerFragment()
    ensures Resolve(Some("cancer")) == Entry(3)
  {
    CancerLabel();
    CancerMissesEarlierKeys();
    assert Text.MatchAt(ConditionKeys[3], "CANCER", 5);
    Text.ContainsWitness(ConditionKeys[3], "CANCER", 5);
    PartialMatchAt("CANCER", 3);
    ResolveOfMatch("cancer", 3);
  }

  lemma HealthyLabel()
    ensures CleanLabel("healthy") == "HEALTHY"
  {
    assert Text.Upper("healthy") == "HEALTHY";
    CleanOfKeyForm("healthy");
  }

  lemma HealthyMatchesNoKey()
    ensures "HEALTHY" !in ConditionKeys && !AnyPartial("HEALTHY")
  {
    var c := "HEALTHY";
    HealthyInNoKey();
    forall j | 0 <= j < |ConditionKeys|
      ensures !Text.Contains(c, ConditionKeys[j])
    {
      Text.AbsentChar(c, ConditionKeys[j], ConditionKeys[j][1]);
    }
  }

  lemma HealthyInNoKey()
    ensures forall j :: 0 <= j < |ConditionKeys| ==> !Text.Contains(ConditionKeys[j], "HEALTHY")
  {
    forall j | 0 <= j < |ConditionKeys|
      ensures !Text.Contains(ConditionKeys[j], "HEALTHY")
    {
      Text.AbsentChar(ConditionKeys[j], "HEALTHY", 'H');
    }
  }

  lemma HealthyIsFirstKeyword()
    ensures FirstKeywordIn("HEALTHY", 1)
  {
    var c := "HEALTHY";
    Text.AbsentChar(c, KeywordMap[0].0, 'N');
    assert Text.MatchAt(c, KeywordMap[1].0, 0);
    Text.ContainsWitness(c, KeywordMap[1].0, 0);
  }

  /** The keyword stage: "healthy" matches no key but is the keyword HEALTHY. */
  lemma KeywordStage()
    ensures Resolve(Some("healthy")) == Entry(0)
  {
    HealthyLabel();
    HealthyMatchesNoKey();
    HealthyIsFirstKeyword();
    KeywordMatchAt("HEALTHY", 1);
    ResolveOfMatch("healthy", 0);
  }

  lemma XyzMatchesNothing()
    ensures "XYZ" !in ConditionKeys && !AnyPartial("XYZ") && !AnyKeyword("XYZ")
  {
    var c := "XYZ";
    forall j | 0 <= j < |ConditionKeys|
      ensures !PartialMatch(ConditionKeys[j], c)
    {
      Text.AbsentChar(ConditionKeys[j], c, 'X');
      Text.AbsentChar(c, ConditionKeys[j], ConditionKeys[j][0]);
    }
    forall j | 0 <= j < |KeywordMap|
      ensures !Text.Contains(c, KeywordMap[j].0)
    {
      Text.AbsentChar(c, KeywordMap[j].0, KeywordMap[j].0[0]);
    }
  }

  /** A label that matches nothing gets the fallback quoting the raw label. */
  lemma UnknownLabelFallsBack()
    ensures Resolve(Some("xyz")) == Fallback("xyz")
  {
    assert Text.Upper("xyz") == "XYZ";
    CleanOfKeyForm("xyz");
    XyzMatchesNothing();
    FallbackStage("xyz");
  }
}
