/**
 * The script check applied to Hindi voice output: for the "devanagari" script type, text
 * holding any Arabic-block character fails, and non-empty text without a Devanagari-block
 * character fails; every other script type passes whatever the text.
 */
module ScriptCheck {
  import opened Wrappers

  /** `lo <= c <= hi` on code points. */
  predicate InBlock(c: char, lo: char, hi: char)
  {
    lo <= c <= hi
  }

  /** `any(lo <= c <= hi for c in text)`. */
  function AnyInBlock(text: string, lo: char, hi: char): (b: bool)
    ensures b <==> exists i :: 0 <= i < |text| && InBlock(text[i], lo, hi)
  {
    if text == [] then false
    else if InBlock(text[0], lo, hi) then true
    else
      assert forall i :: 0 < i < |text| ==> text[i] == text[1..][i - 1];
      AnyInBlock(text[1..], lo, hi)
  }

  function HasDevanagari(text: string): bool { AnyInBlock(text, '\U{0900}', '\U{097F}') }
  function HasArabic(text: string): bool { AnyInBlock(text, '\U{0600}', '\U{06FF}') }

  /** `check_script(text, script_type)`; `None` stands for a missing script type. */
  function CheckScript(text: string, scriptType: Option<string>): (ok: bool)
    ensures scriptType != Some("devanagari") ==> ok
    ensures scriptType == Some("devanagari") ==>
      (ok <==> |text| == 0 || (HasDevanagari(text) && !HasArabic(text)))
  {
    if scriptType == Some("devanagari") then
      if HasArabic(text) then false
      else if !HasDevanagari(text) && |text| > 0 then false
      else true
    else true
  }

  /** One Arabic-block character fails the check, even beside Devanagari characters. */
  lemma ArabicFails(text: string, k: nat)
    requires k < |text| && '\U{0600}' <= text[k] <= '\U{06FF}'
    ensures !CheckScript(text, Some("devanagari"))
  {
    assert InBlock(text[k], '\U{0600}', '\U{06FF}');
  }

}
