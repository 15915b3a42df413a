/**
 * The parsing of the diagnosis context a client sends with a chat message ("Diagnosis:
 * PNEUMONIA, Confidence: 98.7%"): a label and a confidence, grounded in the knowledge base
 * as the medical context of the system prompt.
 */
module ChatContext {
  import opened Wrappers
  import Text
  import Numbers
  import MedicalContext
  import ConditionRecords

  /** The diagnosis label of a context string (already stripped). */
  function ParseLabel(c: string): string
  {
    if Text.Contains(c, "Diagnosis:") then Text.Strip(Text.AfterLast(Text.BeforeFirst(c, ","), ":"))
    else if Text.Contains(c, ":") then Text.Strip(Text.BeforeFirst(c, ":"))
    else Text.Strip(Text.BeforeFirst(c, ","))
  }

  /**
   * A match of `(\d+\.?\d*)%` starting at `i`: the end of its number group.  Backing off
   * the greedy digit runs never helps, because a shorter run is followed by a digit.
   */
  function NumberBeforePercent(s: string, i: nat): (r: Option<nat>)
    requires i <= |s|
    ensures r.Some? ==> i < r.value < |s| && s[r.value] == '%'
    ensures r.Some? ==> Numbers.PyFloat(s[i..r.value]).Some?
  {
    if i == |s| || !Text.IsDigit(s[i]) then None
    else
      var k := Text.DigitRunEnd(s, i);
      if k < |s| && s[k] == '%' then
        NumberGroupParses(s[i..k], "", false);
        Some(k)
      else if k < |s| && s[k] == '.' then
        var m := Text.DigitRunEnd(s, k + 1);
        if m < |s| && s[m] == '%' then
          assert s[i..m] == s[i..k] + "." + s[k + 1..m];
          NumberGroupParses(s[i..k], s[k + 1..m], true);
          Some(m)
        else None
      else None
  }

  /** The number group: digits, then optionally a point and more digits, is a valid float. */
  lemma NumberGroupParses(ip: string, fp: string, point: bool)
    requires |ip| > 0 && Numbers.AllDigits(ip) && Numbers.AllDigits(fp)
    requires !point ==> fp == ""
    ensures Numbers.PyFloat(if point then ip + "." + fp else ip).Some?
  {
    Numbers.NoPointInDigits(ip);
    var g := if point then ip + "." + fp else ip;
    if point {
      assert g[..|ip|] == ip && g[|ip|] == '.';
      Text.IndexOfCharAt(g, '.', |ip|);
      assert g[..|ip|] == ip && g[|ip| + 1..] == fp;
    }
    GroupChars(ip, fp, point);
    Numbers.DecimalCharsPlain(g);
    Numbers.PyFloatOfDecimal(g);
  }

  lemma GroupChars(ip: string, fp: string, point: bool)
    requires Numbers.AllDigits(ip) && Numbers.AllDigits(fp)
    ensures var g := if point then ip + "." + fp else ip;
      forall i :: 0 <= i < |g| ==> Text.IsDigit(g[i]) || g[i] == '.'
  {
    var g := if point then ip + "." + fp else ip;
    forall i | 0 <= i < |g|
      ensures Text.IsDigit(g[i]) || g[i] == '.'
    {
      if point && i > |ip| {
        assert g[i] == fp[i - |ip| - 1];
      } else if i < |ip| {
        assert g[i] == ip[i];
      }
    }
  }

  /** `re.search(r"(\d+\.?\d*)%", s)`: the number group of the leftmost match. */
  function SearchNumberPercent(s: string, i: nat): (r: Option<string>)
    requires i <= |s|
    decreases |s| - i
    ensures r.Some? ==> Numbers.PyFloat(r.value).Some?
  {
    if i == |s| then None
    else
      match NumberBeforePercent(s, i)
      case Some(e) => Some(s[i..e])
      case None => SearchNumberPercent(s, i + 1)
  }

  /**
   * The confidence of a context string, or None when `float()` rejects the text after
   * "Confidence:" (the exception that sends the handler to its fallback).
   */
  function ParseConfidence(c: string): (r: Option<real>)
    ensures r.None? ==> Text.Contains(c, "Confidence:")
    ensures !Text.Contains(c, "Confidence:") && '%' !in c ==> r == Some(0.0)
  {
    if Text.Contains(c, "Confidence:") then
      Numbers.PyFloat(Text.Strip(Text.RemoveChar(Text.RemoveChar(Text.AfterLast(c, "Confidence:"), '%'), ')')))
    else if '%' in c then
      match SearchNumberPercent(c, 0)
      case None => Some(0.0)
      case Some(g) => Numbers.PyFloat(g)
    else Some(0.0)
  }

  /** What the handler embeds when parsing the context raised. */
  function RawContext(raw: string): (r: string)
    ensures Text.Contains(r, raw)
  {
    Text.ContainsInfix("\nDiagnosis context " + "provided: ", raw, "\n");
    "\nDiagnosis context " + "provided: " + raw + "\n"
  }

  /**
   * The grounded medical context for the system prompt, with `lookup` the knowledge-base
   * lookup of a diagnosis label (`KnowledgeLookup` on the server).
   */
  function MedicalContextText(context: Option<string>, lookup: string -> ConditionRecords.ConditionInfo): string
  {
    if context.None? || |context.value| == 0 then ""
    else
      var c := Text.Strip(context.value);
      match ParseConfidence(c)
      case None => RawContext(context.value)
      case Some(conf) => Grounded(ParseLabel(c), conf, lookup)
  }

  /** `get_condition_info(diagnosis)`: the knowledge-base record of a label. */
  function KnowledgeLookup(dx: string): ConditionRecords.ConditionInfo
  {
    MedicalContext.GetConditionInfo(Some(dx))
  }

  /**
   * The record `lookup` gives `dx`, formatted for the prompt: the detected condition on the
   * first line, then the confidence with one decimal and the record's severity.
   */
  function Grounded(dx: string, confidence: real, lookup: string -> ConditionRecords.ConditionInfo): (s: string)
    ensures Text.StartsWith(s, "\n" + MedicalContext.TitleLine(dx) + "\n")
    ensures Text.Contains(s, "\n" + MedicalContext.ConfidenceLine(confidence) + "\n")
    ensures Text.Contains(s, "\n" + MedicalContext.SeverityLine(lookup(dx)) + "\n")
  {
    MedicalContext.FormatContextForPrompt(lookup(dx), dx, confidence)
  }

  /**
   * No context (or an empty one) adds nothing to the prompt; a confidence that `float()`
   * rejects sends the handler to its fallback, which embeds the raw context.
   */
  lemma ContextFallbacks(context: Option<string>, lookup: string -> ConditionRecords.ConditionInfo)
    ensures context.None? || context.value == "" ==> |MedicalContextText(context, lookup)| == 0
    ensures context.Some? && context.value != "" && ParseConfidence(Text.Strip(context.value)).None? ==>
      MedicalContextText(context, lookup) == RawContext(context.value)
      && Text.Contains(MedicalContextText(context, lookup), context.value)
  {
  }

  // ---- The context the client sends ----

  /** A diagnosis label as the client writes it: no separators, no padding. */
  predicate PlainLabel(dx: string)
  {
    |dx| > 0 && ',' !in dx && ':' !in dx && !Text.IsSpace(dx[0]) && !Text.IsSpace(dx[|dx| - 1])
  }

  /** A confidence as written: digits, points, signs, exponent marks and underscores. */
  predicate NumberText(n: string)
  {
    |n| > 0 && forall i :: 0 <= i < |n| ==> Text.IsDigit(n[i]) || n[i] in ".+-eE_"
  }

  /** The context string the client sends: "Diagnosis: PNEUMONIA, Confidence: 98.7%". */
  function StandardContext(dx: string, n: string): string
  {
    "Diagnosis: " + dx + ", Confidence: " + n + "%"
  }

  /** The first `c` of `s` is at `k`, so the first match of the one-character text is there. */
  lemma FindCharAt(s: string, c: char, k: nat)
    requires k < |s| && s[k] == c && c !in s[..k]
    ensures Text.FindFrom(s, [c], 0) == k
  {
    forall j: nat | j < k
      ensures !Text.MatchAt(s, [c], j)
    {
      assert s[..k][j] == s[j];
    }
    Text.FindFromAt(s, [c], 0, k);
  }

  /** The label of a standard context is the label the client wrote. */
  lemma StandardLabel(dx: string, n: string)
    requires PlainLabel(dx)
    ensures ParseLabel(StandardContext(dx, n)) == dx
  {
    var c := StandardContext(dx, n);
    var d := "Diagnosis: " + dx;
    assert c == d + ", Confidence: " + n + "%";
    assert Text.MatchAt(c, "Diagnosis:", 0) by {
      assert c[..10] == "Diagnosis:";
    }
    Text.ContainsWitness(c, "Diagnosis:", 0);
    assert c[..|d|] == d;
    FindCharAt(c, ',', |d|);
    assert Text.BeforeFirst(c, ",") == d;
    FindCharAt(d, ':', 9);
    assert d[10..] == " " + dx;
    Text.AbsentChar(" " + dx, ":", ':');
    assert Text.AfterLast(d, ":") == " " + dx;
    Text.StripOneSpace(dx);
  }

  lemma {:induction false} RemoveCharAppend(s: string, t: string, c: char)
    ensures Text.RemoveChar(s + t, c) == Text.RemoveChar(s, c) + Text.RemoveChar(t, c)
  {
    if s == [] {
      assert s + t == t;
    } else {
      assert (s + t)[1..] == s[1..] + t;
      RemoveCharAppend(s[1..], t, c);
    }
  }

  /** No occurrence of "Confidence:" in `a` + "Confidence:" + `b` starts before `a` ends. */
  lemma FirstConfidenceAt(a: string, b: string)
    requires |a| >= 10 && ':' !in a[10..]
    ensures Text.FindFrom(a + "Confidence:" + b, "Confidence:", 0) == |a|
  {
    var c := a + "Confidence:" + b;
    assert Text.MatchAt(c, "Confidence:", |a|) by {
      assert c[|a|..|a| + 11] == "Confidence:";
    }
    forall j: nat | j < |a|
      ensures !Text.MatchAt(c, "Confidence:", j)
    {
      if j + 10 < |a| {
        assert a[10..][j] == c[j + 10];
      } else {
        assert c[j + 10] == "Confidence:"[j + 10 - |a|];
      }
      assert c[j..j + 11][10] == c[j + 10] != ':';
    }
    Text.FindFromAt(c, "Confidence:", 0, |a|);
  }

  /** The text after the only "Confidence:", which no later ':' follows. */
  lemma AfterConfidence(a: string, b: string)
    requires |a| >= 10 && ':' !in a[10..] && ':' !in b
    ensures Text.AfterLast(a + "Confidence:" + b, "Confidence:") == b
  {
    var c := a + "Confidence:" + b;
    FirstConfidenceAt(a, b);
    assert c[|a| + 11..] == b;
    Text.AbsentChar(b, "Confidence:", ':');
  }

  /** Dropping the '%' characters removes just the final one. */
  lemma DropPercent(n: string)
    requires NumberText(n)
    ensures Text.RemoveChar(" " + n + "%", '%') == " " + n
  {
    RemoveCharAppend(" " + n, "%", '%');
    Text.RemoveAbsent(" " + n, '%');
    assert Text.RemoveChar("%", '%') == [] + Text.RemoveChar("", '%');
  }

  /** A number text holds no ')' and neither starts nor ends with a space. */
  lemma NumberTextEnds(n: string)
    requires NumberText(n)
    ensures ')' !in " " + n
    ensures !Text.IsSpace(n[0]) && !Text.IsSpace(n[|n| - 1])
  {
    assert Text.IsDigit(n[0]) || n[0] in ".+-eE_";
    assert Text.IsDigit(n[|n| - 1]) || n[|n| - 1] in ".+-eE_";
    forall i | 0 <= i < |" " + n|
      ensures (" " + n)[i] != ')'
    {
      if i > 0 {
        assert (" " + n)[i] == n[i - 1];
        assert Text.IsDigit(n[i - 1]) || n[i - 1] in ".+-eE_";
      }
    }
  }

  /** Dropping the '%' and ')' characters and stripping leaves the number text. */
  lemma CleanNumberText(n: string)
    requires NumberText(n)
    ensures Text.Strip(Text.RemoveChar(Text.RemoveChar(" " + n + "%", '%'), ')')) == n
  {
    DropPercent(n);
    NumberTextEnds(n);
    Text.RemoveAbsent(" " + n, ')');
    Text.StripOneSpace(n);
  }

  /** The confidence of a standard context is the number the client wrote, read by `float()`. */
  lemma StandardConfidence(dx: string, n: string)
    requires PlainLabel(dx) && NumberText(n)
    ensures ParseConfidence(StandardContext(dx, n)) == Numbers.PyFloat(n)
  {
    var a := "Diagnosis: " + dx + ", ";
    assert StandardContext(dx, n) == a + "Confidence:" + (" " + n + "%");
    assert a[10..] == " " + dx + ", ";
    Text.ContainsInfix(a, "Confidence:", " " + n + "%");
    AfterConfidence(a, " " + n + "%");
    CleanNumberText(n);
  }

  /** A confidence written with an exponent, "1e2%", grounds the context at 100. */
  lemma ExponentConfidence(dx: string)
    requires PlainLabel(dx)
    ensures ParseConfidence(StandardContext(dx, "1e2")) == Some(100.0)
  {
    StandardConfidence(dx, "1e2");
    Numbers.OneEtwo();
  }
}
