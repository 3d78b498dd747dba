/** The short summary kept when a subagent stops at its turn cap. */
module PartialSummary {
  import opened Basics

  const SUMMARY_CHARS: nat := 2000
  const NO_TEXT: string := "Stopped before producing a summary."
  const ELLIPSIS: string := "\U{2026}"

  /** The characters the standard library trims; the Unicode table is a parameter of the model. */
  type Whitespace = char -> bool

  function TrimStart(s: string, white: Whitespace): string {
    if s != "" && white(s[0]) then TrimStart(s[1..], white) else s
  }

  function TrimEnd(s: string, white: Whitespace): string {
    if s != "" && white(s[|s| - 1]) then TrimEnd(s[..|s| - 1], white) else s
  }

  function Trim(s: string, white: Whitespace): string { TrimEnd(TrimStart(s, white), white) }

  function TruncatedChars(s: string, max: nat, suffix: string): string {
    if |s| > max then s[..max] + suffix else s
  }

  /** The loop over the characters, leaving at the first one too many. */
  method TruncateChars(s: string, max: nat, suffix: string) returns (r: string)
    ensures r == TruncatedChars(s, max, suffix)
    ensures |r| <= max + |suffix| && (max > 0 && s != "" ==> r != "")
  {
    var count := 0;
    for i := 0 to |s|
      invariant count == i <= max
    {
      count := count + 1;
      if count > max {
        return s[..i] + suffix;
      }
    }
    return s;
  }

  function DerivePartialSummary(content: string, white: Whitespace): string {
    var trimmed := Trim(content, white);
    if trimmed == "" then NO_TEXT else TruncatedChars(trimmed, SUMMARY_CHARS, ELLIPSIS)
  }

  predicate AllWhite(s: string, white: Whitespace) { forall k :: 0 <= k < |s| ==> white(s[k]) }

  lemma {:induction false} TrimStartMeaning(s: string, white: Whitespace) returns (off: string)
    ensures s == off + TrimStart(s, white) && AllWhite(off, white)
    ensures TrimStart(s, white) != "" ==> !white(TrimStart(s, white)[0])
  {
    off := "";
    if s != "" && white(s[0]) {
      var rest := TrimStartMeaning(s[1..], white);
      off := [s[0]] + rest;
      assert s == [s[0]] + s[1..];
    }
  }

  lemma {:induction false} TrimEndMeaning(s: string, white: Whitespace) returns (off: string)
    ensures s == TrimEnd(s, white) + off && AllWhite(off, white)
    ensures TrimEnd(s, white) != "" ==> !white(TrimEnd(s, white)[|TrimEnd(s, white)| - 1])
  {
    off := "";
    if s != "" && white(s[|s| - 1]) {
      var n := |s| - 1;
      var rest := TrimEndMeaning(s[..n], white);
      off := rest + [s[n]];
      assert s == s[..n] + [s[n]];
    }
  }

  /** Trimming cuts off white characters only, and leaves a text that neither starts nor ends white. */
  lemma TrimMeaning(s: string, white: Whitespace) returns (before: string, after: string)
    ensures s == before + Trim(s, white) + after && AllWhite(before, white) && AllWhite(after, white)
    ensures var r := Trim(s, white); r != "" ==> !white(r[0]) && !white(r[|r| - 1])
  {
    before := TrimStartMeaning(s, white);
    after := TrimEndMeaning(TrimStart(s, white), white);
    assert s == before + (Trim(s, white) + after);
  }

  /** Never empty and never over 2001 characters; the trimmed text itself when that is short enough and not blank. */
  lemma SummaryIsShortAndNotEmpty(content: string, white: Whitespace)
    ensures var r, t := DerivePartialSummary(content, white), Trim(content, white);
            && 0 < |r| <= 2001
            && (t == "" <==> AllWhite(content, white))
            && (t == "" ==> r == "Stopped before producing a summary.")
            && (t != "" ==> r[0] == t[0] && !white(r[0]))
            && (t != "" && |t| <= SUMMARY_CHARS ==> r == t)
            && (|t| > SUMMARY_CHARS ==> r == t[..SUMMARY_CHARS] + ELLIPSIS)
  {
    var before, after := TrimMeaning(content, white);
    var t := Trim(content, white);
    if t != "" { assert content[|before|] == t[0]; }
  }
}
