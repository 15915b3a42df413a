/**
 * String helpers shared by the backend and frontend models.  Character classes are the
 * ASCII ones: letters, digits, the underscore as a word character, and the six ASCII
 * whitespace characters.
 */
module Text {
  predicate IsDigit(c: char) { '0' <= c <= '9' }
  predicate IsUpperLetter(c: char) { 'A' <= c <= 'Z' }
  predicate IsLowerLetter(c: char) { 'a' <= c <= 'z' }
  predicate IsAsciiLetter(c: char) { IsUpperLetter(c) || IsLowerLetter(c) }
  /** A regular-expression word character (`\w`). */
  predicate IsWordChar(c: char) { IsAsciiLetter(c) || IsDigit(c) || c == '_' }
  /** A regular-expression whitespace character (`\s`), also what `strip()` removes. */
  predicate IsSpace(c: char)
  {
    c == ' ' || c == '\t' || c == '\n' || c == '\r' || c == '\U{0B}' || c == '\U{0C}'
  }

  function UpperChar(c: char): (r: char)
    ensures IsLowerLetter(c) ==> IsUpperLetter(r)
    ensures !IsLowerLetter(c) ==> r == c
  {
    if IsLowerLetter(c) then (c as int - 32) as char else c
  }

  function LowerChar(c: char): (r: char)
    ensures IsUpperLetter(c) ==> IsLowerLetter(r)
    ensures !IsUpperLetter(c) ==> r == c
  {
    if IsUpperLetter(c) then (c as int + 32) as char else c
  }

  /** `str.upper()` / `toUpperCase()` on ASCII letters. */
  function Upper(s: string): (r: string)
    ensures |r| == |s|
    ensures forall i :: 0 <= i < |s| ==> !IsLowerLetter(r[i])
  {
    seq(|s|, i requires 0 <= i < |s| => UpperChar(s[i]))
  }

  /** `str.lower()` on ASCII letters. */
  function Lower(s: string): (r: string)
    ensures |r| == |s|
    ensures forall i :: 0 <= i < |s| ==> !IsUpperLetter(r[i])
  {
    seq(|s|, i requires 0 <= i < |s| => LowerChar(s[i]))
  }

  lemma UpperIdempotent(s: string)
    ensures Upper(Upper(s)) == Upper(s)
  {
  }

  function DropLeadingSpaces(s: string): (r: string)
    ensures |r| <= |s| && r == s[|s| - |r|..]
    ensures r == [] || !IsSpace(r[0])
    ensures forall i :: 0 <= i < |s| - |r| ==> IsSpace(s[i])
  {
    if |s| > 0 && IsSpace(s[0]) then DropLeadingSpaces(s[1..]) else s
  }

  function DropTrailingSpaces(s: string): (r: string)
    ensures |r| <= |s| && r == s[..|r|]
    ensures r == [] || !IsSpace(r[|r| - 1])
    ensures forall i :: |r| <= i < |s| ==> IsSpace(s[i])
  {
    if |s| > 0 && IsSpace(s[|s| - 1]) then DropTrailingSpaces(s[..|s| - 1]) else s
  }

  /** `str.strip()` / `String.prototype.trim()` with ASCII whitespace. */
  function Strip(s: string): (r: string)
    ensures r == [] || (!IsSpace(r[0]) && !IsSpace(r[|r| - 1]))
  {
    DropTrailingSpaces(DropLeadingSpaces(s))
  }

  /** Strip removes whitespace only: what is left is a contiguous piece of the input. */
  lemma StripIsInfix(s: string)
    ensures var a := |s| - |DropLeadingSpaces(s)|;
      a + |Strip(s)| <= |s| && Strip(s) == s[a..a + |Strip(s)|]
  {
  }

  /** `s.replace(a, b)` for single characters. */
  function ReplaceChar(s: string, a: char, b: char): (r: string)
    ensures |r| == |s|
    ensures forall i :: 0 <= i < |s| ==> r[i] == (if s[i] == a then b else s[i])
    ensures a != b ==> a !in r
  {
    seq(|s|, i requires 0 <= i < |s| => if s[i] == a then b else s[i])
  }

  /** `s.replace(c, "")`. */
  function RemoveChar(s: string, c: char): (r: string)
    ensures c !in r
    ensures |r| <= |s|
    ensures forall x :: x in r ==> x in s
  {
    if s == [] then []
    else (if s[0] == c then [] else [s[0]]) + RemoveChar(s[1..], c)
  }

  /** `sub` occurs in `s` starting at index `i`. */
  predicate MatchAt(s: string, sub: string, i: nat)
  {
    i + |sub| <= |s| && s[i..i + |sub|] == sub
  }

  /** Index of the first occurrence of `sub` at or after `i`, or -1. */
  function FindFrom(s: string, sub: string, i: nat): (r: int)
    decreases |s| - i
    ensures r == -1 || (i <= r && MatchAt(s, sub, r))
    ensures r == -1 ==> forall j: nat :: i <= j ==> !MatchAt(s, sub, j)
    ensures r >= 0 ==> forall j: nat :: i <= j < r ==> !MatchAt(s, sub, j)
  {
    if i + |sub| > |s| then -1
    else if s[i..i + |sub|] == sub then i
    else FindFrom(s, sub, i + 1)
  }

  /** Index of the first `c` in `s`, or -1. */
  function IndexOfChar(s: string, c: char): (r: int)
    ensures -1 <= r < |s|
    ensures r == -1 <==> c !in s
    ensures r >= 0 ==> s[r] == c && c !in s[..r]
  {
    if s == [] then -1
    else if s[0] == c then 0
    else
      var k := IndexOfChar(s[1..], c);
      if k < 0 then -1
      else
        assert s[..k + 1] == [s[0]] + s[1..][..k];
        k + 1
  }

  /** `sub in s`. */
  predicate Contains(s: string, sub: string)
  {
    FindFrom(s, sub, 0) >= 0
  }

  lemma ContainsWitness(s: string, sub: string, i: nat)
    requires MatchAt(s, sub, i)
    ensures Contains(s, sub)
  {
  }

  /** A character of `sub` that never occurs in `s` rules out an occurrence. */
  lemma AbsentChar(s: string, sub: string, c: char)
    requires c in sub && c !in s
    ensures !Contains(s, sub)
  {
  }

  /** `b` occurs in any text that has it as an infix. */
  lemma ContainsInfix(a: string, b: string, c: string)
    ensures Contains(a + b + c, b)
  {
    assert (a + b + c)[|a|..|a| + |b|] == b;
    ContainsWitness(a + b + c, b, |a|);
  }

  /** Length of the run of decimal digits that starts `s`. */
  function LeadingDigits(s: string): (k: nat)
    ensures k <= |s|
    ensures forall i :: 0 <= i < k ==> IsDigit(s[i])
    ensures k < |s| ==> !IsDigit(s[k])
  {
    if s == [] || !IsDigit(s[0]) then 0 else 1 + LeadingDigits(s[1..])
  }

  /** `re.sub(r'^\d+_', '', s)`: drop one or more leading digits followed by an underscore. */
  function DropNumericPrefix(s: string): (r: string)
    ensures EndsWith(s, r)
    ensures r != s <==> 0 < LeadingDigits(s) < |s| && s[LeadingDigits(s)] == '_'
    ensures r != s ==> |r| == |s| - LeadingDigits(s) - 1
  {
    var k := LeadingDigits(s);
    if 0 < k < |s| && s[k] == '_' then s[k + 1..] else s
  }

  predicate StartsWith(s: string, prefix: string)
  {
    |prefix| <= |s| && s[..|prefix|] == prefix
  }

  predicate EndsWith(s: string, suffix: string)
  {
    |suffix| <= |s| && s[|s| - |suffix|..] == suffix
  }

  /** `s.split(sep)[0]`: the text before the first occurrence of `sep`. */
  function BeforeFirst(s: string, sep: string): (r: string)
    ensures StartsWith(s, r)
    ensures !Contains(s, sep) ==> r == s
  {
    var k := FindFrom(s, sep, 0);
    if k < 0 then s else s[..k]
  }

  /** `s.split(sep)[-1]` for a non-empty `sep`: the text after the last occurrence. */
  function AfterLast(s: string, sep: string): (r: string)
    requires |sep| > 0
    decreases |s|
    ensures EndsWith(s, r)
    ensures !Contains(s, sep) ==> r == s
  {
    var k := FindFrom(s, sep, 0);
    if k < 0 then s else AfterLast(s[k + |sep|..], sep)
  }

  /** `sep.join(parts)`. */
  function Join(parts: seq<string>, sep: string): string
  {
    if |parts| == 0 then ""
    else if |parts| == 1 then parts[0]
    else parts[0] + sep + Join(parts[1..], sep)
  }

  /** Replace every maximal run of whitespace by a single space (`re.sub(r"\s+", " ", s)`). */
  function CollapseSpaces(s: string): (r: string)
    ensures forall i :: 0 <= i < |r| ==> r[i] == ' ' || (r[i] in s && !IsSpace(r[i]))
    ensures forall i :: 0 <= i < |r| - 1 ==> !(IsSpace(r[i]) && IsSpace(r[i + 1]))
    ensures |s| > 0 && IsSpace(s[0]) ==> |r| > 0 && r[0] == ' '
    ensures |s| > 0 && !IsSpace(s[0]) ==> |r| > 0 && r[0] == s[0]
    ensures s == [] <==> r == []
  {
    if s == [] then []
    else if IsSpace(s[0]) then [' '] + CollapseSpaces(DropLeadingSpaces(s))
    else [s[0]] + CollapseSpaces(s[1..])
  }

  /**
   * A regular-expression word boundary `\b` at position `i` of `s` (0 <= i <= |s|):
   * exactly one of the neighbouring characters is a word character.
   */
  predicate BoundaryAt(s: string, i: nat)
  {
    (0 < i <= |s| && IsWordChar(s[i - 1])) != (i < |s| && IsWordChar(s[i]))
  }

  /**
   * A literal search pattern as used with `re.sub`: the escaped text, whether it is
   * preceded and followed by `\b`, and whether it carries the `(?i)` flag.
   */
  datatype Pattern = Pattern(lit: string, leftBoundary: bool, rightBoundary: bool, ignoreCase: bool)

  predicate PatternAt(s: string, p: Pattern, i: nat)
  {
    i + |p.lit| <= |s|
    && (if p.ignoreCase then Lower(s[i..i + |p.lit|]) == Lower(p.lit) else s[i..i + |p.lit|] == p.lit)
    && (p.leftBoundary ==> BoundaryAt(s, i))
    && (p.rightBoundary ==> BoundaryAt(s, i + |p.lit|))
  }

  /**
   * `re.sub(p, rep, s)` from position `i` on: scanning left to right, each match is
   * replaced and scanning resumes after it; boundaries are judged on the original text.
   */
  function SubFrom(s: string, p: Pattern, rep: string, i: nat): string
    requires i <= |s|
    decreases |s| - i, if PatternAt(s, p, i) && |p.lit| == 0 then 0 else 1
  {
    if PatternAt(s, p, i) && |p.lit| > 0 then rep + SubFrom(s, p, rep, i + |p.lit|)
    else if PatternAt(s, p, i) then rep + (if i == |s| then [] else [s[i]] + SubFrom(s, p, rep, i + 1))
    else if i == |s| then []
    else [s[i]] + SubFrom(s, p, rep, i + 1)
  }

  function Sub(s: string, p: Pattern, rep: string): string
  {
    SubFrom(s, p, rep, 0)
  }

  /** Substitution changes nothing when the pattern matches nowhere. */
  lemma {:induction false} SubFromNoMatch(s: string, p: Pattern, rep: string, i: nat)
    requires i <= |s|
    requires forall j: nat :: i <= j <= |s| ==> !PatternAt(s, p, j)
    decreases |s| - i
    ensures SubFrom(s, p, rep, i) == s[i..]
  {
    if i < |s| {
      SubFromNoMatch(s, p, rep, i + 1);
    }
  }

  lemma SubNoMatch(s: string, p: Pattern, rep: string)
    requires forall j: nat :: j <= |s| ==> !PatternAt(s, p, j)
    ensures Sub(s, p, rep) == s
  {
    SubFromNoMatch(s, p, rep, 0);
  }

  /** A pattern whose first character never occurs in `s` (case-sensitively) matches nowhere. */
  lemma PatternAbsent(s: string, p: Pattern)
    requires !p.ignoreCase && |p.lit| > 0 && p.lit[0] !in s
    ensures forall j: nat :: j <= |s| ==> !PatternAt(s, p, j)
  {
    forall j: nat | j <= |s|
      ensures !PatternAt(s, p, j)
    {
      if j + |p.lit| <= |s| {
        assert s[j..j + |p.lit|][0] == s[j];
      }
    }
  }

  /**
   * A match of a pattern bounded by `\b` on both sides whose literal starts and ends with a
   * word character is a whole word: neither neighbour is a word character.
   */
  lemma WholeWordMatch(s: string, p: Pattern, i: nat)
    requires p.leftBoundary && p.rightBoundary && |p.lit| > 0
    requires IsWordChar(p.lit[0]) && IsWordChar(p.lit[|p.lit| - 1]) && !p.ignoreCase
    requires PatternAt(s, p, i)
    ensures i == 0 || !IsWordChar(s[i - 1])
    ensures i + |p.lit| == |s| || !IsWordChar(s[i + |p.lit|])
  {
    assert s[i..i + |p.lit|][0] == s[i];
    assert s[i..i + |p.lit|][|p.lit| - 1] == s[i + |p.lit| - 1];
  }

  lemma RemoveAbsent(s: string, c: char)
    requires c !in s
    ensures RemoveChar(s, c) == s
  {
    if s != [] {
      RemoveAbsent(s[1..], c);
      assert s == [s[0]] + s[1..];
    }
  }

  lemma CollapseWithoutSpaces(s: string)
    requires forall i :: 0 <= i < |s| ==> !IsSpace(s[i])
    ensures CollapseSpaces(s) == s
  {
    if s != [] {
      CollapseWithoutSpaces(s[1..]);
      assert s == [s[0]] + s[1..];
    }
  }

  /** Strips nothing from a text without spaces at either end. */
  lemma StripUnspaced(s: string)
    requires |s| > 0 && !IsSpace(s[0]) && !IsSpace(s[|s| - 1])
    ensures Strip(s) == s
  {
  }

  /** Strips exactly one leading space from such a text. */
  lemma StripOneSpace(s: string)
    requires |s| > 0 && !IsSpace(s[0]) && !IsSpace(s[|s| - 1])
    ensures Strip(" " + s) == s
  {
    assert (" " + s)[1..] == s;
    assert DropLeadingSpaces(" " + s) == s;
  }

  /** Strips exactly the padding spaces around such a text. */
  lemma StripPadded(s: string)
    requires |s| > 0 && !IsSpace(s[0]) && !IsSpace(s[|s| - 1])
    ensures Strip(" " + s + " ") == s
  {
    var p := " " + s + " ";
    assert p[1..] == s + " ";
    assert DropLeadingSpaces(p) == s + " ";
    assert (s + " ")[..|s|] == s;
  }

  lemma StripWithoutSpaces(s: string)
    requires forall i :: 0 <= i < |s| ==> !IsSpace(s[i])
    ensures Strip(s) == s
  {
  }

  /**
   * `s.rsplit(c, 1)[0]`: the text before the last `c`, or all of `s` when `c` does not
   * occur.
   */
  function BeforeLastChar(s: string, c: char): (r: string)
    ensures StartsWith(s, r)
    ensures c !in s ==> r == s
    ensures c in s ==> |r| < |s| && s[|r|] == c && c !in s[|r| + 1..]
  {
    if s == [] then []
    else if s[|s| - 1] == c then s[..|s| - 1]
    else if c !in s then s
    else
      var r := BeforeLastChar(s[..|s| - 1], c);
      assert c in s ==> c in s[..|s| - 1] by {
        if c in s {
          var k :| 0 <= k < |s| && s[k] == c;
          assert s[..|s| - 1][k] == c;
        }
      }
      assert c in s ==> s[..|s| - 1][|r| + 1..] + [s[|s| - 1]] == s[|r| + 1..];
      r
  }

  /** The first match at or after `i` is at `k` when there is one at `k` and none before. */
  lemma {:induction false} FindFromAt(s: string, sub: string, i: nat, k: nat)
    requires i <= k && MatchAt(s, sub, k)
    requires forall j: nat :: i <= j < k ==> !MatchAt(s, sub, j)
    decreases k - i
    ensures FindFrom(s, sub, i) == k
  {
    if i < k {
      assert !MatchAt(s, sub, i);
      FindFromAt(s, sub, i + 1, k);
    }
  }

  lemma ReplaceAbsent(s: string, a: char, b: char)
    requires a !in s
    ensures ReplaceChar(s, a, b) == s
  {
  }

  /** The end of the run of decimal digits that starts at `i`. */
  function DigitRunEnd(s: string, i: nat): (k: nat)
    requires i <= |s|
    decreases |s| - i
    ensures i <= k <= |s|
    ensures forall j :: i <= j < k ==> IsDigit(s[j])
    ensures k < |s| ==> !IsDigit(s[k])
  {
    if i < |s| && IsDigit(s[i]) then DigitRunEnd(s, i + 1) else i
  }

  /** `b` between `a` and `c`: the whole starts with `a`, contains `b` and ends with `c`. */
  lemma Sandwich(a: string, b: string, c: string)
    ensures StartsWith(a + b + c, a) && Contains(a + b + c, b) && EndsWith(a + b + c, c)
  {
    ContainsInfix(a, b, c);
    assert (a + b + c)[..|a|] == a;
    assert (a + b + c)[|a + b|..] == c;
  }

  /** The first `c` is at `k` when `s[k]` is `c` and no earlier character is. */
  lemma IndexOfCharAt(s: string, c: char, k: nat)
    requires k < |s| && s[k] == c && c !in s[..k]
    ensures IndexOfChar(s, c) == k
  {
    var r := IndexOfChar(s, c);
    if r < k {
      assert false;
    } else if r > k {
      assert false;
    }
  }
}
