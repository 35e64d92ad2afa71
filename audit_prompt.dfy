/**
 * `AuditPromptBuilder`: the contract is put into the template by
 * `String.prototype.replace` with a string pattern, which replaces the first
 * occurrence only and interprets `$` patterns in the replacement text; and
 * `getMetrics` lists the eight canonical metric names.
 */
module AuditPrompt {
  import opened Wrappers
  import Text
  import opened PromptText

  /** `s.indexOf(p, from)`: the first index at or after `from` where `p` occurs. */
  function IndexOf(s: string, p: string, from: nat): (r: Option<nat>)
    ensures r.Some? ==>
              && from <= r.value
              && Text.OccursAt(p, s, r.value)
              && forall j: nat :: from <= j < r.value ==> !Text.OccursAt(p, s, j)
    ensures r.None? ==> forall j: nat :: from <= j ==> !Text.OccursAt(p, s, j)
    decreases |s| - from
  {
    if Text.OccursAt(p, s, from) then Some(from)
    else if from + |p| >= |s| then None
    else IndexOf(s, p, from + 1)
  }

  /**
   * The replacement text of a string-pattern `replace` (GetSubstitution of
   * ECMA-262 with no captures): `$$` is `$`, `$&` the matched text, `` $` ``
   * the text before the match and `$'` the text after it; any other `$` is
   * kept as it is.
   */
  function Expand(rep: string, matched: string, before: string, after: string): string
    decreases |rep|
  {
    if rep == [] then []
    else if rep[0] == '$' && |rep| >= 2 && rep[1] == '$' then "$" + Expand(rep[2..], matched, before, after)
    else if rep[0] == '$' && |rep| >= 2 && rep[1] == '&' then matched + Expand(rep[2..], matched, before, after)
    else if rep[0] == '$' && |rep| >= 2 && rep[1] == '`' then before + Expand(rep[2..], matched, before, after)
    else if rep[0] == '$' && |rep| >= 2 && rep[1] == '\'' then after + Expand(rep[2..], matched, before, after)
    else [rep[0]] + Expand(rep[1..], matched, before, after)
  }

  /** A replacement text without `$` is inserted as it is. */
  lemma {:induction false} ExpandDollarFree(rep: string, matched: string, before: string, after: string)
    requires '$' !in rep
    ensures Expand(rep, matched, before, after) == rep
    decreases |rep|
  {
    if rep != [] {
      assert rep[0] in rep;
      assert forall c :: c in rep[1..] ==> c in rep;
      ExpandDollarFree(rep[1..], matched, before, after);
    }
  }

  /** `s.replace(p, rep)` with a string pattern `p`. */
  function Replace(s: string, p: string, rep: string): (r: string)
    ensures (forall j: nat :: !Text.OccursAt(p, s, j)) ==> r == s
  {
    match IndexOf(s, p, 0)
    case None => s
    case Some(k) => s[..k] + Expand(rep, p, s[..k], s[k + |p|..]) + s[k + |p|..]
  }

  /** Only the first occurrence of the pattern is replaced; the text around it is unchanged. */
  lemma ReplaceFirst(s: string, p: string, rep: string, k: nat)
    requires Text.OccursAt(p, s, k)
    requires forall j: nat :: j < k ==> !Text.OccursAt(p, s, j)
    ensures Replace(s, p, rep) == s[..k] + Expand(rep, p, s[..k], s[k + |p|..]) + s[k + |p|..]
  {
    var r := IndexOf(s, p, 0);
    assert r == Some(k);
  }

  /** The characters of an occurrence are those of the pattern. */
  lemma OccursAtChar(p: string, s: string, i: nat, k: nat)
    requires k < |p| && i + k < |s|
    ensures Text.OccursAt(p, s, i) ==> s[i + k] == p[k]
  {
    if Text.OccursAt(p, s, i) {
      assert s[i..i + |p|][k] == s[i + k];
    }
  }

  /**
   * A pattern that starts with `{`, has no other `{` and does not continue
   * with a line break occurs in `head + p + tail` only right after `head`,
   * when `head` has no `{` and every `{` of `tail` opens a line.
   */
  lemma OnlyAfterHead(head: string, p: string, tail: string)
    requires '{' !in head && BracesOpenLines(tail)
    requires |p| >= 2 && p[0] == '{' && p[1] != '\n' && '{' !in p[1..]
    ensures forall j: nat :: Text.OccursAt(p, head + p + tail, j) <==> j == |head|
  {
    var t := head + p + tail;
    forall j: nat
      ensures Text.OccursAt(p, t, j) <==> j == |head|
    {
      if j == |head| {
        assert t[j..j + |p|] == p;
      } else if j < |head| {
        OccursAtChar(p, t, j, 0);
        assert t[j] == head[j] && head[j] in head;
      } else if j < |head| + |p| {
        OccursAtChar(p, t, j, 0);
        assert t[j] == p[1..][j - |head| - 1];
        assert t[j] in p[1..];
      } else if j + 1 < |t| {
        OccursAtChar(p, t, j, 0);
        OccursAtChar(p, t, j, 1);
        assert t[j] == tail[j - |head| - |p|];
        assert t[j + 1] == tail[j + 1 - |head| - |p|];
      } else {
        assert !Text.OccursAt(p, t, j);
      }
    }
  }

  /** Replacing a pattern whose first occurrence follows `head` directly. */
  lemma ReplaceAfterHead(head: string, p: string, tail: string, rep: string)
    requires forall j: nat :: Text.OccursAt(p, head + p + tail, j) <==> j == |head|
    ensures Replace(head + p + tail, p, rep) == head + Expand(rep, p, head, tail) + tail
  {
    var t := head + p + tail;
    var k := |head|;
    ReplaceFirst(t, p, rep, k);
    assert t[..k] == head;
    assert t[k + |p|..] == tail;
  }

  /** The placeholder occurs in the template exactly once, right after the 147-character head. */
  lemma PlaceholderExactlyOnce()
    ensures forall j: nat :: Text.OccursAt(PLACEHOLDER, AUDIT_PROMPT_TEMPLATE, j) <==> j == |PROMPT_HEAD|
    ensures |PROMPT_HEAD| == 147
  {
    HeadLength();
    HeadBraceFree();
    TailLines();
    PlaceholderLength();
    OnlyAfterHead(PROMPT_HEAD, PLACEHOLDER, PROMPT_TAIL);
  }

  /** `buildAuditPrompt(contract)`. */
  function BuildAuditPrompt(contract: string): string {
    Replace(AUDIT_PROMPT_TEMPLATE, PLACEHOLDER, contract)
  }

  /** The prompt is the head, the expanded contract and the tail. */
  lemma BuildAuditPromptExpands(contract: string)
    ensures BuildAuditPrompt(contract)
         == PROMPT_HEAD + Expand(contract, PLACEHOLDER, PROMPT_HEAD, PROMPT_TAIL) + PROMPT_TAIL
  {
    PlaceholderExactlyOnce();
    ReplaceAfterHead(PROMPT_HEAD, PLACEHOLDER, PROMPT_TAIL, contract);
  }

  /** The four `$` patterns of a replacement text. */
  lemma ExpandPatterns(matched: string, before: string, after: string)
    ensures Expand("$&", matched, before, after) == matched
    ensures Expand("$$", matched, before, after) == "$"
    ensures Expand("$`", matched, before, after) == before
    ensures Expand("$'", matched, before, after) == after
  {
    assert Expand("$&", matched, before, after) == matched + Expand([], matched, before, after);
    assert Expand("$$", matched, before, after) == "$" + Expand([], matched, before, after);
    assert Expand("$`", matched, before, after) == before + Expand([], matched, before, after);
    assert Expand("$'", matched, before, after) == after + Expand([], matched, before, after);
  }

  /** A contract without `$` is embedded verbatim, replacing the ten placeholder characters. */
  lemma BuildAuditPromptVerbatim(contract: string)
    requires '$' !in contract
    ensures BuildAuditPrompt(contract) == PROMPT_HEAD + contract + PROMPT_TAIL
    ensures |BuildAuditPrompt(contract)| == |AUDIT_PROMPT_TEMPLATE| - 10 + |contract|
  {
    BuildAuditPromptExpands(contract);
    ExpandDollarFree(contract, PLACEHOLDER, PROMPT_HEAD, PROMPT_TAIL);
    PlaceholderLength();
  }

  /** `$&` puts the placeholder back: the prompt is the template itself. */
  lemma MatchedPattern()
    ensures BuildAuditPrompt("$&") == AUDIT_PROMPT_TEMPLATE
  {
    ExpandPatterns(PLACEHOLDER, PROMPT_HEAD, PROMPT_TAIL);
    BuildAuditPromptExpands("$&");
  }

  /** `$$` becomes one `$`, so that contract is not embedded verbatim. */
  lemma DollarPattern()
    ensures BuildAuditPrompt("$$") == PROMPT_HEAD + "$" + PROMPT_TAIL
    ensures |BuildAuditPrompt("$$")| == |AUDIT_PROMPT_TEMPLATE| - 9
  {
    ExpandPatterns(PLACEHOLDER, PROMPT_HEAD, PROMPT_TAIL);
    BuildAuditPromptExpands("$$");
    PlaceholderLength();
  }

  /** `` $` `` repeats the head in place of the contract. */
  lemma BeforePattern()
    ensures BuildAuditPrompt("$`") == PROMPT_HEAD + PROMPT_HEAD + PROMPT_TAIL
  {
    ExpandPatterns(PLACEHOLDER, PROMPT_HEAD, PROMPT_TAIL);
    BuildAuditPromptExpands("$`");
  }

  /** `$'` repeats the tail in place of the contract. */
  lemma AfterPattern()
    ensures BuildAuditPrompt("$'") == PROMPT_HEAD + PROMPT_TAIL + PROMPT_TAIL
  {
    ExpandPatterns(PLACEHOLDER, PROMPT_HEAD, PROMPT_TAIL);
    BuildAuditPromptExpands("$'");
  }

  /** `getMetrics()`: the eight metric names of the template, all different, in the template's order. */
  function GetMetrics(): (r: seq<string>)
    ensures |r| == 8 && r == TEMPLATE_METRICS
    ensures forall i, j :: 0 <= i < j < |r| ==> r[i] != r[j]
  {
    var names := [
      "Security Vulnerabilities",
      "Gas Optimization",
      "Code Quality",
      "Access Control",
      "Input Validation",
      "Business Logic",
      "Upgradability",
      "Documentation"
    ];
    assert forall i :: 0 <= i < |names| ==> names[i] != [] && names[i][0] == "SGCAIBUD"[i];
    names
  }
}
