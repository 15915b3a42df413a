/**
 * The dominant-script classifier used by the multilingual voice checks: every character
 * is counted in at most one of three buckets, chosen by its Unicode character name
 * (supplied as the function `nameOf`, empty for unnamed characters) and, for Latin, by
 * being an ASCII letter; the fullest bucket wins, ties going to the earlier bucket.
 */
module ScriptDetection {
  import Text

  datatype Bucket = DevanagariBucket | ArabicBucket | LatinBucket | Uncounted

  datatype Counts = Counts(devanagari: nat, arabic: nat, latin: nat)

  /** The bucket of one character: a DEVANAGARI name, else an ARABIC name, else an ASCII letter. */
  function BucketOf(c: char, nameOf: char -> string): Bucket
  {
    if Text.Contains(nameOf(c), "DEVANAGARI") then DevanagariBucket
    else if Text.Contains(nameOf(c), "ARABIC") then ArabicBucket
    else if Text.IsAsciiLetter(c) then LatinBucket
    else Uncounted
  }

  function Add(counts: Counts, b: Bucket): Counts
  {
    match b
    case DevanagariBucket => counts.(devanagari := counts.devanagari + 1)
    case ArabicBucket => counts.(arabic := counts.arabic + 1)
    case LatinBucket => counts.(latin := counts.latin + 1)
    case Uncounted => counts
  }

  /** The counts after the characters of `text`, in order. */
  function Tally(text: string, nameOf: char -> string): Counts
  {
    if text == [] then Counts(0, 0, 0)
    else Add(Tally(text[..|text| - 1], nameOf), BucketOf(text[|text| - 1], nameOf))
  }

  function Total(counts: Counts): nat
  {
    counts.devanagari + counts.arabic + counts.latin
  }

  /** The number of characters of `text` that land in some bucket. */
  function Counted(text: string, nameOf: char -> string): nat
  {
    if text == [] then 0
    else Counted(text[..|text| - 1], nameOf) + (if BucketOf(text[|text| - 1], nameOf) == Uncounted then 0 else 1)
  }

  /**
   * `max(counts, key=counts.get)` over the keys in the order devanagari, arabic, latin: the
   * first key holding the largest count.
   */
  function Dominant(counts: Counts): (r: string)
    ensures r in {"devanagari", "arabic", "latin"}
    ensures r == "devanagari" ==> counts.devanagari >= counts.arabic && counts.devanagari >= counts.latin
    ensures r == "arabic" ==> counts.arabic > counts.devanagari && counts.arabic >= counts.latin
    ensures r == "latin" ==> counts.latin > counts.devanagari && counts.latin > counts.arabic
  {
    if counts.devanagari >= counts.arabic && counts.devanagari >= counts.latin then "devanagari"
    else if counts.arabic >= counts.latin then "arabic"
    else "latin"
  }

  function CountOf(counts: Counts, key: string): nat
  {
    if key == "devanagari" then counts.devanagari
    else if key == "arabic" then counts.arabic
    else counts.latin
  }

  /** The dominant key when its count is positive, otherwise "unknown". */
  function Verdict(counts: Counts): string
  {
    var d := Dominant(counts);
    if CountOf(counts, d) > 0 then d else "unknown"
  }

  /** `detect_script(text)`: one pass that counts, then the maximum. */
  method DetectScript(text: string, nameOf: char -> string) returns (r: string)
    ensures r == Verdict(Tally(text, nameOf))
  {
    var counts := Counts(0, 0, 0);
    var i := 0;
    while i < |text|
      invariant 0 <= i <= |text|
      invariant counts == Tally(text[..i], nameOf)
    {
      assert text[..i + 1][..i] == text[..i];
      var n := nameOf(text[i]);
      if Text.Contains(n, "DEVANAGARI") {
        counts := counts.(devanagari := counts.devanagari + 1);
      } else if Text.Contains(n, "ARABIC") {
        counts := counts.(arabic := counts.arabic + 1);
      } else if Text.IsAsciiLetter(text[i]) {
        counts := counts.(latin := counts.latin + 1);
      }
      i := i + 1;
    }
    assert text[..i] == text;
    var d := Dominant(counts);
    r := if CountOf(counts, d) > 0 then d else "unknown";
  }

  /** Each character is counted at most once: the buckets hold exactly the counted characters. */
  lemma {:induction false} CountedOnce(text: string, nameOf: char -> string)
    ensures Total(Tally(text, nameOf)) == Counted(text, nameOf) <= |text|
  {
    if text != [] {
      CountedOnce(text[..|text| - 1], nameOf);
    }
  }

  /** The verdict is "unknown" exactly when no character was counted. */
  lemma UnknownIffNothingCounted(counts: Counts)
    ensures Verdict(counts) == "unknown" <==> Total(counts) == 0
  {
  }

  lemma EmptyIsUnknown(nameOf: char -> string)
    ensures Verdict(Tally("", nameOf)) == "unknown"
  {
  }

  /** Without a single Devanagari-named character the verdict is never "devanagari". */
  lemma {:induction false} NoDevanagariCount(text: string, nameOf: char -> string)
    requires forall i :: 0 <= i < |text| ==> !Text.Contains(nameOf(text[i]), "DEVANAGARI")
    ensures Tally(text, nameOf).devanagari == 0
  {
    if text != [] {
      NoDevanagariCount(text[..|text| - 1], nameOf);
    }
  }

  lemma NeverDevanagariWithout(text: string, nameOf: char -> string)
    requires forall i :: 0 <= i < |text| ==> !Text.Contains(nameOf(text[i]), "DEVANAGARI")
    ensures Verdict(Tally(text, nameOf)) != "devanagari"
  {
    NoDevanagariCount(text, nameOf);
  }

  /**
   * Characters of only two kinds: Devanagari-named ones and ones counted nowhere (digits,
   * spaces, punctuation).  Then the Devanagari count is what the other two are not.
   */
  lemma {:induction false} OnlyDevanagariCounted(text: string, nameOf: char -> string)
    requires forall i :: 0 <= i < |text| ==>
      BucketOf(text[i], nameOf) == DevanagariBucket || BucketOf(text[i], nameOf) == Uncounted
    ensures Tally(text, nameOf).arabic == 0 && Tally(text, nameOf).latin == 0
    ensures (exists i :: 0 <= i < |text| && BucketOf(text[i], nameOf) == DevanagariBucket) ==>
      Tally(text, nameOf).devanagari > 0
  {
    if text != [] {
      OnlyDevanagariCounted(text[..|text| - 1], nameOf);
      if exists i :: 0 <= i < |text| && BucketOf(text[i], nameOf) == DevanagariBucket {
        var i :| 0 <= i < |text| && BucketOf(text[i], nameOf) == DevanagariBucket;
        if i < |text| - 1 {
          assert text[..|text| - 1][i] == text[i];
        }
      }
    }
  }

  /** Devanagari text mixed with digits and punctuation is still "devanagari". */
  lemma DevanagariWithDigits(text: string, nameOf: char -> string, k: nat)
    requires forall i :: 0 <= i < |text| ==>
      BucketOf(text[i], nameOf) == DevanagariBucket || BucketOf(text[i], nameOf) == Uncounted
    requires k < |text| && BucketOf(text[k], nameOf) == DevanagariBucket
    ensures Verdict(Tally(text, nameOf)) == "devanagari"
  {
    assert exists i :: 0 <= i < |text| && BucketOf(text[i], nameOf) == DevanagariBucket;
    OnlyDevanagariCounted(text, nameOf);
    DevanagariOnlyVerdict(Tally(text, nameOf));
  }

  lemma DevanagariOnlyVerdict(c: Counts)
    requires c.devanagari > 0 && c.arabic == 0 && c.latin == 0
    ensures Verdict(c) == "devanagari"
  {
  }

  /** Ties go to the earlier key: devanagari before arabic before latin. */
  lemma TiesBreakInKeyOrder(n: nat)
    requires n > 0
    ensures Verdict(Counts(n, n, n)) == "devanagari"
    ensures Verdict(Counts(0, n, n)) == "arabic"
  {
  }
}
