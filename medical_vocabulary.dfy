/**
 * Post-processing of speech-to-text transcripts: a table of commonly misheard medical
 * phrases and their corrections, applied in table order, each as a case-insensitive
 * whole-word substitution once its lower-case form occurs in the lower-cased text.
 */
module MedicalVocabulary {
  import opened Wrappers
  import Text

  /** The built-in table, in the order of its entries. */
  function DefaultCorrections(): seq<(string, string)>
  {
    [ ("plural " + "effusion", "pleural " + "effusion"),
      ("consultation", "consolidation"),
      ("ammonia", "pneumonia"),
      ("numonia", "pneumonia"),
      ("nemomia", "pneumonia"),
      ("cardiomegaly", "cardiomegaly"),
      ("atelectasis", "atelectasis"),
      ("nodule", "nodule"),
      ("mass", "mass"),
      ("infiltration", "infiltration") ]
  }

  /** `(?i)\b<wrong>\b`, the escaped phrase bounded by word boundaries, ignoring case. */
  function WordPattern(wrong: string): (p: Text.Pattern)
    ensures p.lit == wrong && p.leftBoundary && p.rightBoundary && p.ignoreCase
  {
    Text.Pattern(wrong, true, true, true)
  }

  /**
   * One entry of the table: substitute only when the phrase occurs in the lower-cased text
   * (the test is case-sensitive on the phrase itself).
   */
  function Correct(out: string, wrong: string, right: string): string
  {
    if Text.Contains(Text.Lower(out), wrong) then Text.Sub(out, WordPattern(wrong), right) else out
  }

  /** The entries of `corrections` applied one after the other to `text`. */
  function ApplyAll(text: string, corrections: seq<(string, string)>): string
  {
    if corrections == [] then text
    else
      var last := corrections[|corrections| - 1];
      Correct(ApplyAll(text, corrections[..|corrections| - 1]), last.0, last.1)
  }

  class Vocabulary {
    var corrections: seq<(string, string)>

    /** `corrections or DEFAULT_CORRECTIONS`: a missing or empty table means the default one. */
    constructor (custom: Option<seq<(string, string)>>)
      ensures custom.Some? && custom.value != [] ==> corrections == custom.value
      ensures custom.None? || custom.value == [] ==> corrections == DefaultCorrections()
    {
      if custom.Some? && custom.value != [] {
        corrections := custom.value;
      } else {
        corrections := DefaultCorrections();
      }
    }

    /** `post_process(text)`: every entry in table order; the table itself is left alone. */
    method PostProcess(text: Option<string>) returns (r: string)
      ensures text.None? || text == Some("") ==> r == ""
      ensures text.Some? && text.value != "" ==> r == ApplyAll(text.value, corrections)
    {
      if text.None? || text.value == "" {
        return "";
      }
      var out := text.value;
      var i := 0;
      while i < |corrections|
        invariant 0 <= i <= |corrections|
        invariant out == ApplyAll(text.value, corrections[..i])
      {
        assert corrections[..i + 1][..i] == corrections[..i];
        var entry := corrections[i];
        if Text.Contains(Text.Lower(out), entry.0) {
          out := Text.Sub(out, WordPattern(entry.0), entry.1);
        }
        i := i + 1;
      }
      assert corrections[..i] == corrections;
      r := out;
    }
  }

  /** A transcript in which no phrase of the table occurs comes back unchanged. */
  lemma {:induction false} NoPhraseUnchanged(text: string, corrections: seq<(string, string)>)
    requires forall i :: 0 <= i < |corrections| ==> !Text.Contains(Text.Lower(text), corrections[i].0)
    ensures ApplyAll(text, corrections) == text
  {
    if corrections != [] {
      NoPhraseUnchanged(text, corrections[..|corrections| - 1]);
    }
  }

  /**
   * A phrase that occurs only inside longer words of the text (no whole-word match) leaves
   * the text as it was, even though the substring test lets it through.
   */
  lemma OnlyWholeWords(out: string, wrong: string, right: string)
    requires forall j: nat :: j <= |out| ==> !Text.PatternAt(out, WordPattern(wrong), j)
    ensures Correct(out, wrong, right) == out
  {
    Text.SubNoMatch(out, WordPattern(wrong), right);
  }

  /** Applying the first `k + 1` entries is applying the first `k`, then entry `k`. */
  lemma ApplyStep(text: string, cs: seq<(string, string)>, k: nat)
    requires k < |cs|
    ensures ApplyAll(text, cs[..k + 1]) == Correct(ApplyAll(text, cs[..k]), cs[k].0, cs[k].1)
  {
    assert cs[..k + 1][..k] == cs[..k];
  }

  /** An entry whose phrase does not occur in the lower-cased text leaves it alone. */
  lemma Skip(out: string, wrong: string, right: string)
    requires Text.Lower(out) == out && !Text.Contains(out, wrong)
    ensures Correct(out, wrong, right) == out
  {
  }

  /** Entries from `i` to `j` that each leave `u` alone keep the result at `u`. */
  lemma {:induction false} UnchangedRange(text: string, cs: seq<(string, string)>, i: nat, j: nat, u: string)
    requires i <= j <= |cs| && ApplyAll(text, cs[..i]) == u
    requires forall k :: i <= k < j ==> Correct(u, cs[k].0, cs[k].1) == u
    ensures ApplyAll(text, cs[..j]) == u
    decreases j - i
  {
    if i < j {
      ApplyStep(text, cs, i);
      UnchangedRange(text, cs, i + 1, j, u);
    }
  }

  lemma AmmoniaIsLower()
    ensures Text.Lower("ammonia") == "ammonia"
  {
  }

  lemma PneumoniaIsLower()
    ensures Text.Lower("pneumonia") == "pneumonia"
  {
  }

  lemma AmmoniaReplaced()
    ensures Correct("ammonia", "ammonia", "pneumonia") == "pneumonia"
  {
    AmmoniaIsLower();
    Text.ContainsWitness("ammonia", "ammonia", 0);
    assert Text.PatternAt("ammonia", WordPattern("ammonia"), 0);
  }

  lemma NoduleLowered()
    ensures Text.Lower("Nodule") == "nodule"
  {
  }

  /**
   * A match is replaced by the table's lower-case correction, so even an identity entry
   * rewrites the capitalised "Nodule" to "nodule".
   */
  lemma IdentityEntryLowersCase()
    ensures Correct("Nodule", "nodule", "nodule") == "nodule"
  {
    NoduleLowered();
    Text.ContainsWitness("nodule", "nodule", 0);
    assert Text.PatternAt("Nodule", WordPattern("nodule"), 0);
  }

  /** One differing character rules out an occurrence at `j`. */
  lemma Mismatch(s: string, sub: string, j: nat, d: nat)
    requires j + |sub| <= |s| && d < |sub| && s[j + d] != sub[d]
    ensures !Text.MatchAt(s, sub, j)
  {
    assert s[j..j + |sub|][d] == s[j + d];
  }

  lemma NoMisspellingInPneumonia()
    ensures !Text.Contains("pneumonia", "numonia") && !Text.Contains("pneumonia", "nemomia")
  {
    var s1 := "pneumonia";
    Mismatch(s1, "numonia", 0, 0);
    Mismatch(s1, "numonia", 1, 1);
    Mismatch(s1, "numonia", 2, 0);
    Mismatch(s1, "nemomia", 0, 0);
    Mismatch(s1, "nemomia", 1, 2);
    Mismatch(s1, "nemomia", 2, 0);
  }

  /** Every entry after "ammonia" leaves "pneumonia" as it is. */
  lemma PneumoniaKept(k: nat)
    requires 3 <= k < |DefaultCorrections()|
    ensures Correct("pneumonia", DefaultCorrections()[k].0, DefaultCorrections()[k].1) == "pneumonia"
  {
    var t := DefaultCorrections();
    var s1 := "pneumonia";
    PneumoniaIsLower();
    NoMisspellingInPneumonia();
    if k == 5 {
      Text.AbsentChar(s1, t[5].0, 'c');
    } else if k == 6 {
      Text.AbsentChar(s1, t[6].0, 't');
    } else if k == 7 {
      Text.AbsentChar(s1, t[7].0, 'd');
    } else if k == 8 {
      Text.AbsentChar(s1, t[8].0, 's');
    } else if k == 9 {
      Text.AbsentChar(s1, t[9].0, 'f');
    }
  }

  /** A transcript that is just "ammonia" is corrected to "pneumonia" by the built-in table. */
  lemma AmmoniaCorrected()
    ensures ApplyAll("ammonia", DefaultCorrections()) == "pneumonia"
  {
    var t := DefaultCorrections();
    AmmoniaIsLower();
    assert t[..0] == [];
    UnchangedRange("ammonia", t, 0, 2, "ammonia");
    ApplyStep("ammonia", t, 2);
    AmmoniaReplaced();
    forall k | 3 <= k < 10
      ensures Correct("pneumonia", t[k].0, t[k].1) == "pneumonia"
    {
      PneumoniaKept(k);
    }
    UnchangedRange("ammonia", t, 3, 10, "pneumonia");
    assert t[..10] == t;
  }

  /** A custom table replaces the default one: "ammonia" survives a table without it. */
  lemma CustomTableReplacesDefault()
    ensures ApplyAll("ammonia", [("foo", "bar")]) == "ammonia"
  {
    AmmoniaIsLower();
    Text.AbsentChar("ammonia", "foo", 'f');
    NoPhraseUnchanged("ammonia", [("foo", "bar")]);
  }
}
