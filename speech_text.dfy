/**
 * Text preparation for speech synthesis: the normalisation chain that makes medical text
 * read well aloud (percentages, abbreviations, units, markup clean-up) and the length cap
 * applied before the text goes to the speech engine.
 */
module SpeechText {
  import opened Wrappers
  import Text

  /**
   * A match of `(\d+(?:\.\d+)?)%` starting at `i`: the position of its `%`.  The integer
   * digits are taken greedily, and backing off never helps, because a shorter run is
   * followed by another digit.
   */
  function PercentAt(s: string, i: nat): (r: Option<nat>)
    requires i <= |s|
    ensures r.Some? ==> i < r.value < |s| && s[r.value] == '%' && Text.IsDigit(s[r.value - 1])
    ensures r.Some? ==> forall j :: i <= j < r.value ==> s[j] != '%'
    ensures r.None? && i + 1 < |s| && Text.IsDigit(s[i]) ==> s[i + 1] != '%'
  {
    if i == |s| || !Text.IsDigit(s[i]) then None
    else
      var k := Text.DigitRunEnd(s, i);
      if k < |s| && s[k] == '%' then Some(k)
      else if k + 1 < |s| && s[k] == '.' && Text.IsDigit(s[k + 1]) then
        var m := Text.DigitRunEnd(s, k + 1);
        if m < |s| && s[m] == '%' then Some(m) else None
      else None
  }

  /** The substitution scan from `i` on: each match keeps its number and spells out `%`. */
  function PercentFrom(s: string, i: nat): string
    requires i <= |s|
    decreases |s| - i
  {
    if i == |s| then []
    else
      match PercentAt(s, i)
      case Some(p) => s[i..p] + " percent" + PercentFrom(s, p + 1)
      case None => [s[i]] + PercentFrom(s, i + 1)
  }

  /** `re.sub(r"(\d+(?:\.\d+)?)%", r"\1 percent", text)` */
  function PercentRule(s: string): string
  {
    PercentFrom(s, 0)
  }

  /** A `%` sign that directly follows a digit. */
  predicate NumberPercent(s: string, j: nat)
  {
    0 < j < |s| && s[j] == '%' && Text.IsDigit(s[j - 1])
  }

  /** Reference reading of the percentage rule: every `%` right after a digit becomes " percent". */
  function SpellPercents(s: string, i: nat): string
    requires i <= |s|
    decreases |s| - i
  {
    if i == |s| then []
    else (if NumberPercent(s, i) then " percent" else [s[i]]) + SpellPercents(s, i + 1)
  }

  lemma {:induction false} SpellPlain(s: string, i: nat, p: nat)
    requires i <= p <= |s|
    requires forall j :: i <= j < p ==> s[j] != '%'
    decreases p - i
    ensures SpellPercents(s, i) == s[i..p] + SpellPercents(s, p)
  {
    if i < p {
      SpellPlain(s, i + 1, p);
      SpellKept(s, i);
      assert s[i..p] == [s[i]] + s[i + 1..p];
    } else {
      assert s[i..p] == [];
    }
  }

  /** A character that is not `%` is kept as it is. */
  lemma SpellKept(s: string, i: nat)
    requires i < |s| && s[i] != '%'
    ensures SpellPercents(s, i) == [s[i]] + SpellPercents(s, i + 1)
  {
    assert !NumberPercent(s, i);
  }

  lemma {:induction false} PercentFromSpells(s: string, i: nat)
    requires i <= |s| && !NumberPercent(s, i)
    decreases |s| - i
    ensures PercentFrom(s, i) == SpellPercents(s, i)
  {
    if i < |s| {
      match PercentAt(s, i)
      case Some(p) =>
        assert !NumberPercent(s, p + 1);
        PercentFromSpells(s, p + 1);
        SpellMatch(s, i, p);
      case None =>
        assert !NumberPercent(s, i + 1);
        PercentFromSpells(s, i + 1);
        assert SpellPercents(s, i) == [s[i]] + SpellPercents(s, i + 1);
    }
  }

  /** A match ending at the `%` at `p` is spelled as its number followed by " percent". */
  lemma SpellMatch(s: string, i: nat, p: nat)
    requires i < p < |s| && NumberPercent(s, p)
    requires forall j :: i <= j < p ==> s[j] != '%'
    ensures SpellPercents(s, i) == s[i..p] + " percent" + SpellPercents(s, p + 1)
  {
    SpellPlain(s, i, p);
    SpellSign(s, p);
    var a, t := s[i..p], SpellPercents(s, p + 1);
    assert a + (" percent" + t) == a + " percent" + t;
  }

  /** A `%` right after a digit is spelled " percent". */
  lemma SpellSign(s: string, p: nat)
    requires p < |s| && NumberPercent(s, p)
    ensures SpellPercents(s, p) == " percent" + SpellPercents(s, p + 1)
  {
  }

  /**
   * The regular-expression scan replaces exactly the `%` signs that follow a digit, each by
   * " percent", and keeps every other character, the numbers included.
   */
  lemma PercentRuleSpellsPercents(s: string)
    ensures PercentRule(s) == SpellPercents(s, 0)
  {
    PercentFromSpells(s, 0);
  }

  /** A text without `%` passes the percentage rule unchanged. */
  lemma PercentRuleWithoutPercent(s: string)
    requires '%' !in s
    ensures PercentRule(s) == s
  {
    PercentRuleSpellsPercents(s);
    SpellPlain(s, 0, |s|);
  }

  /** "98.7%" is read as "98.7 percent". */
  lemma DecimalPercent()
    ensures PercentRule("98.7%") == "98.7 percent"
  {
    var s := "98.7%";
    PercentRuleSpellsPercents(s);
    SpellPlain(s, 0, 4);
    assert NumberPercent(s, 4);
  }

  // The abbreviation and unit patterns, in the order they are applied.
  const DoctorPattern := Text.Pattern("Dr.", true, false, false)
  const VersusPattern := Text.Pattern("vs.", true, false, false)
  const ApproxPattern := Text.Pattern("approx.", true, false, false)
  const WithPattern := Text.Pattern("w/", true, true, false)
  const WithoutPattern := Text.Pattern("w/o", true, true, false)
  const MilligramPattern := Text.Pattern("mg", true, true, false)

  function Abbreviations(s: string): string
  {
    var a := Text.Sub(s, DoctorPattern, "Doctor");
    var b := Text.Sub(a, VersusPattern, "versus");
    var c := Text.Sub(b, ApproxPattern, "approximately");
    var d := Text.Sub(c, WithPattern, "with");
    Text.Sub(d, WithoutPattern, "without")
  }

  function Units(s: string): string
  {
    Text.Sub(s, MilligramPattern, "milligrams")
  }

  /** What the whitespace clean-up leaves: single spaces only, no padding, no `_` or `*`. */
  predicate Tidy(r: string)
  {
    '_' !in r && '*' !in r
    && (forall i :: 0 <= i < |r| ==> r[i] == ' ' || !Text.IsSpace(r[i]))
    && (forall i :: 0 <= i < |r| - 1 ==> !(r[i] == ' ' && r[i + 1] == ' '))
    && (r == [] || (r[0] != ' ' && r[|r| - 1] != ' '))
  }

  /** A text with whitespace runs collapsed to single spaces and no `_` or `*`. */
  predicate Collapsed(x: string)
  {
    '_' !in x && '*' !in x
    && (forall i :: 0 <= i < |x| ==> x[i] == ' ' || !Text.IsSpace(x[i]))
    && (forall i :: 0 <= i < |x| - 1 ==> !(Text.IsSpace(x[i]) && Text.IsSpace(x[i + 1])))
  }

  /** A piece of a collapsed text without `_` or `*` keeps those properties. */
  lemma StripOfCollapsed(x: string)
    requires Collapsed(x)
    ensures Tidy(Text.Strip(x))
  {
    Text.StripIsInfix(x);
    var a := |x| - |Text.DropLeadingSpaces(x)|;
    InfixTidy(x, a, Text.Strip(x));
  }

  /** A piece of such a text that neither starts nor ends with a space is tidy. */
  lemma InfixTidy(x: string, a: nat, r: string)
    requires Collapsed(x)
    requires a + |r| <= |x| && r == x[a..a + |r|]
    requires r == [] || (!Text.IsSpace(r[0]) && !Text.IsSpace(r[|r| - 1]))
    ensures Tidy(r)
  {
    forall i | 0 <= i < |r|
      ensures r[i] == x[a + i] && r[i] != '_' && r[i] != '*'
      ensures r[i] == ' ' || !Text.IsSpace(r[i])
    {
      assert r[i] == x[a + i];
    }
    forall i | 0 <= i < |r| - 1
      ensures !(r[i] == ' ' && r[i + 1] == ' ')
    {
      assert r[i] == x[a + i] && r[i + 1] == x[a + i + 1];
    }
  }

  lemma CollapsedClean(y: string)
    requires '_' !in y && '*' !in y
    ensures Collapsed(Text.CollapseSpaces(y))
  {
  }

  /** Underscores become spaces, asterisks go, whitespace runs collapse, the ends are stripped. */
  function Cleanup(s: string): (r: string)
    ensures Tidy(r)
  {
    var y := Text.RemoveChar(Text.ReplaceChar(s, '_', ' '), '*');
    var x := Text.CollapseSpaces(y);
    CollapsedClean(y);
    StripOfCollapsed(x);
    Text.Strip(x)
  }

  /** `normalize_medical_text`. */
  function Normalize(text: string): (r: string)
    ensures text == "" ==> |r| == 0
    ensures Tidy(r)
  {
    if text == "" then ""
    else Cleanup(Units(Abbreviations(PercentRule(text))))
  }

  /** `mg` is rewritten only as a whole word: never right after or before a letter or digit. */
  lemma MilligramsOnlyAsWord(s: string, i: nat)
    requires Text.PatternAt(s, MilligramPattern, i)
    ensures i == 0 || !Text.IsWordChar(s[i - 1])
    ensures i + 2 == |s| || !Text.IsWordChar(s[i + 2])
  {
    Text.WholeWordMatch(s, MilligramPattern, i);
  }

  lemma WithRuleOnWithout()
    ensures Text.Sub("w/o", WithPattern, "with") == "witho"
  {
    var s := "w/o";
    assert Text.PatternAt(s, WithPattern, 0) by {
      assert s[0..2] == "w/";
      assert Text.BoundaryAt(s, 0) && Text.BoundaryAt(s, 2);
    }
    assert !Text.PatternAt(s, WithPattern, 2);
    assert !Text.PatternAt(s, WithPattern, 3);
  }

  lemma EarlyRulesOnWithout()
    ensures Text.Sub(Text.Sub(Text.Sub("w/o", DoctorPattern, "Doctor"), VersusPattern, "versus"), ApproxPattern, "approximately") == "w/o"
  {
    var s := "w/o";
    Text.PatternAbsent(s, DoctorPattern);
    Text.SubNoMatch(s, DoctorPattern, "Doctor");
    Text.PatternAbsent(s, VersusPattern);
    Text.SubNoMatch(s, VersusPattern, "versus");
    Text.PatternAbsent(s, ApproxPattern);
    Text.SubNoMatch(s, ApproxPattern, "approximately");
  }

  lemma WithoutRuleOnWitho()
    ensures Text.Sub("witho", WithoutPattern, "without") == "witho"
  {
    var t := "witho";
    forall j: nat | j <= |t|
      ensures !Text.PatternAt(t, WithoutPattern, j)
    {
      if j + 3 <= |t| {
        assert t[j..j + 3][1] == t[j + 1];
      }
    }
    Text.SubNoMatch(t, WithoutPattern, "without");
  }

  lemma AbbreviationsOnWithout()
    ensures Abbreviations("w/o") == "witho"
  {
    EarlyRulesOnWithout();
    WithRuleOnWithout();
    WithoutRuleOnWitho();
  }

  lemma UnitsOnWitho()
    ensures Units("witho") == "witho"
  {
    Text.PatternAbsent("witho", MilligramPattern);
    Text.SubNoMatch("witho", MilligramPattern, "milligrams");
  }

  lemma PercentOnWithout()
    ensures PercentRule("w/o") == "w/o"
  {
    PercentRuleWithoutPercent("w/o");
  }

  lemma CleanupOnWitho()
    ensures Cleanup("witho") == "witho"
  {
    CleanupOfPlain("witho");
  }

  /** A text without whitespace, `_` or `*` is already clean. */
  lemma CleanupOfPlain(t: string)
    requires '_' !in t && '*' !in t
    requires forall i :: 0 <= i < |t| ==> !Text.IsSpace(t[i])
    ensures Cleanup(t) == t
  {
    Text.ReplaceAbsent(t, '_', ' ');
    Text.RemoveAbsent(t, '*');
    Text.CollapseWithoutSpaces(t);
    Text.StripWithoutSpaces(t);
  }

  /**
   * Because the `w/` rule runs before the `w/o` rule and `\b` also holds between `/` and a
   * letter, "w/o" is read as "witho", never as "without".
   */
  lemma WithoutReadsWitho()
    ensures Normalize("w/o") == "witho"
  {
    PercentOnWithout();
    AbbreviationsOnWithout();
    UnitsOnWitho();
    CleanupOnWitho();
    NormalizeSteps("w/o", "w/o", "witho", "witho", "witho");
  }

  /** The normalisation of a non-empty text through its four stages. */
  lemma NormalizeSteps(text: string, a: string, b: string, c: string, d: string)
    requires text != [] && PercentRule(text) == a && Abbreviations(a) == b
    requires Units(b) == c && Cleanup(c) == d
    ensures Normalize(text) == d
  {
  }

  const MaxChars := 2000

  /**
   * The safe length cap: a text over `MaxChars` is cut at the last space of its first
   * `MaxChars` characters (or at `MaxChars` when there is none) and "..." is added.
   */
  function CapLength(clean: string): (r: string)
    ensures |clean| <= MaxChars ==> r == clean
    ensures |clean| > MaxChars ==> |r| <= MaxChars + 3 && Text.EndsWith(r, "...")
    ensures |clean| > MaxChars ==> Text.StartsWith(clean, r[..|r| - 3])
    ensures |clean| > MaxChars && ' ' in clean[..MaxChars] ==>
      |r| - 3 < MaxChars && clean[|r| - 3] == ' ' && ' ' !in clean[|r| - 2..MaxChars]
    ensures |clean| > MaxChars && ' ' !in clean[..MaxChars] ==> r == clean[..MaxChars] + "..."
    ensures '_' !in clean ==> '_' !in r
    ensures '*' !in clean ==> '*' !in r
  {
    if |clean| > MaxChars then
      var t := clean[..MaxChars];
      var kept := Text.BeforeLastChar(t, ' ');
      var r := kept + "...";
      assert r[..|r| - 3] == kept;
      assert ' ' in t ==> t[|kept| + 1..] == clean[|kept| + 1..MaxChars];
      assert forall c :: c in kept ==> c in clean by {
        forall c | c in kept
          ensures c in clean
        {
          var i :| 0 <= i < |kept| && kept[i] == c;
          assert clean[i] == c;
        }
      }
      r
    else clean
  }

  /** HTTP 400 from `generate_speech`: there is no text to speak. */
  const TextRequired := 400

  /**
   * The text `generate_speech` sends to the speech engine, or the error status.  The
   * engine itself and the audio stream are outside the model.
   */
  function SpeechInput(text: string): (r: Result<string, int>)
    ensures r.Failure? <==> Text.Strip(text) == ""
    ensures r.Failure? ==> r.error == TextRequired
    ensures r.Success? ==> |r.value| <= MaxChars + 3 && '_' !in r.value && '*' !in r.value
    ensures r.Success? && |Normalize(Text.Strip(text))| <= MaxChars ==> r.value == Normalize(Text.Strip(text))
  {
    var t := Text.Strip(text);
    if t == "" then Failure(TextRequired)
    else Success(CapLength(Normalize(t)))
  }
}
