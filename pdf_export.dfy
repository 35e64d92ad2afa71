/**
 * `generatePDFReport`: the audit result is laid out on pages top to bottom by
 * one cursor, `yPosition`. Every block first asks `checkNewPage` for the room
 * it needs, which starts a new page at the top margin when the block would
 * run into the bottom margin. The drawing itself is reduced to the list of
 * texts placed (page, x, y, text); fonts, colours and shapes are left out,
 * line wrapping (`splitTextToSize`) is the `wrap` parameter, the date is the
 * `date` parameter and template-literal interpolation of a non-string value
 * is `show`.
 */
module PdfExport {
  import opened Wrappers
  import Js
  import Text
  import MatchScan
  import AuditSections
  import opened Exceptions

  const MARGIN: int := 20

  // ---------------------------------------------------------------- metric status

  /** The status label of a metric. */
  datatype Status = Excellent | Good | NeedsImprovement | Critical

  function StatusName(s: Status): string {
    match s
    case Excellent => "EXCELLENT"
    case Good => "GOOD"
    case NeedsImprovement => "NEEDS IMPROVEMENT"
    case Critical => "CRITICAL"
  }

  /** `metric?.score ?? 0`. */
  function ScoreOf(metric: Js.Value): (v: Js.Value)
    ensures !Js.Nullish(v)
    ensures !Js.Nullish(Js.Get(metric, "score")) ==> v == Js.Get(metric, "score")
    ensures Js.Nullish(Js.Get(metric, "score")) ==> v == Js.Num(0.0)
  {
    var score := Js.Get(metric, "score");
    if Js.Nullish(score) then Js.Num(0.0) else score
  }

  /**
   * `>= 8` EXCELLENT, `>= 6` GOOD, `>= 4` NEEDS IMPROVEMENT, otherwise
   * CRITICAL. A value that is not a number fails every comparison here.
   */
  function StatusOf(score: Js.Value): (s: Status)
    ensures score.Num? ==> (s == Excellent <==> score.n >= 8.0)
    ensures score.Num? ==> (s == Good <==> 6.0 <= score.n < 8.0)
    ensures score.Num? ==> (s == NeedsImprovement <==> 4.0 <= score.n < 6.0)
    ensures score.Num? ==> (s == Critical <==> score.n < 4.0)
    ensures !score.Num? ==> s == Critical
  {
    if score.Num? then
      if score.n >= 8.0 then Excellent
      else if score.n >= 6.0 then Good
      else if score.n >= 4.0 then NeedsImprovement
      else Critical
    else Critical
  }

  /** The status of a metric; a metric without a score counts as 0 and is CRITICAL. */
  function MetricStatus(metric: Js.Value): (s: Status)
    ensures Js.Nullish(Js.Get(metric, "score")) ==> s == Critical
    ensures Js.Get(metric, "score").Num? ==> s == StatusOf(Js.Get(metric, "score"))
  {
    StatusOf(ScoreOf(metric))
  }

  /** Worse labels first. */
  function StatusRank(s: Status): nat {
    match s
    case Critical => 0
    case NeedsImprovement => 1
    case Good => 2
    case Excellent => 3
  }

  /** A higher score never gets a worse label. */
  lemma StatusMonotone(x: real, y: real)
    requires x <= y
    ensures StatusRank(StatusOf(Js.Num(x))) <= StatusRank(StatusOf(Js.Num(y)))
  {
  }

  /** `${v}` in a template literal. */
  function Interp(v: Js.Value, show: Js.Value -> string): string {
    if v.Str? then v.s else show(v)
  }

  const UNKNOWN_METRIC := "Unknown Metric"

  /** The headers of the optional blocks. */
  const METRICS_HEADER := "SECURITY METRICS"
  const FINDINGS_HEADER := "DETAILED AUDIT FINDINGS"
  const SUGGESTIONS_HEADER := "RECOMMENDATIONS FOR IMPROVEMENT"
  const LISTING_HEADER := "ANALYZED CONTRACT CODE"
  const BULLET := "\U{2022} "

  /** `${metric?.metric || "Unknown Metric"}: ${score}/10`. */
  function MetricTitle(metric: Js.Value, show: Js.Value -> string): string {
    var name := Js.Get(metric, "metric");
    Interp(if Js.Truthy(name) then name else Js.Str(UNKNOWN_METRIC), show) + ": " + Interp(ScoreOf(metric), show) + "/10"
  }

  // ---------------------------------------------------------------- suggestions and findings

  /** `typeof data === "string" ? data : JSON.stringify(data)`. */
  function TextOf(data: Js.Value, stringify: Js.Value -> string): string {
    if data.Str? then data.s else stringify(data)
  }

  /** The pieces whose trimmed text is not empty, in order. */
  function NonBlank(pieces: seq<string>): (r: seq<string>)
    ensures |r| <= |pieces|
    ensures forall x :: x in r <==> x in pieces && Text.Trim(x) != ""
  {
    if pieces == [] then []
    else
      var rest := NonBlank(pieces[1..]);
      assert forall x :: x in pieces <==> x == pieces[0] || x in pieces[1..];
      if Text.Trim(pieces[0]) != "" then [pieces[0]] + rest else rest
  }

  /** One piece is kept exactly when its trimmed text is not empty. */
  lemma NonBlankSingle(x: string)
    ensures NonBlank([x]) == if Text.Trim(x) != "" then [x] else []
  {
    assert [x][1..] == [];
  }

  /**
   * The non-blank pieces of two lists in turn are those of each, in turn:
   * with `NonBlankSingle` this pins the filter down, so it keeps the order
   * of the pieces and each one as often as it occurs.
   */
  lemma {:induction false} NonBlankAppend(a: seq<string>, b: seq<string>)
    ensures NonBlank(a + b) == NonBlank(a) + NonBlank(b)
    decreases |a|
  {
    if a == [] {
      assert a + b == b;
    } else {
      assert (a + b)[0] == a[0];
      assert (a + b)[1..] == a[1..] + b;
      NonBlankAppend(a[1..], b);
    }
  }

  /** Each piece trimmed. */
  function Trimmed(pieces: seq<string>): (r: seq<string>)
    ensures |r| == |pieces|
    ensures forall i :: 0 <= i < |r| ==> r[i] == Text.Trim(pieces[i])
  {
    seq(|pieces|, i requires 0 <= i < |pieces| => Text.Trim(pieces[i]))
  }

  /** A decoded array whose items `(item || "").replace(...)` can be applied to: strings or falsy values. */
  predicate TextItems(items: seq<Js.Value>) {
    forall i :: 0 <= i < |items| ==> items[i].Str? || !Js.Truthy(items[i])
  }

  /** `item || ""` of a text item. */
  function ItemText(item: Js.Value): string {
    if item.Str? then item.s else ""
  }

  /** The items of a decoded array, each stripped of a leading `$$n$$` and trimmed. */
  function StrippedItems(items: seq<Js.Value>): (r: seq<string>)
    ensures |r| == |items|
    ensures forall i :: 0 <= i < |r| ==> r[i] == MatchScan.Strip(ItemText(items[i]), MatchScan.DollarToParen)
  {
    seq(|items|, i requires 0 <= i < |items| => MatchScan.Strip(ItemText(items[i]), MatchScan.DollarToParen))
  }

  /**
   * `parseSuggestions(data)`: nothing for falsy data; the items of a text
   * that decodes to an array of strings (an item that is not a string makes
   * the mapping throw inside the `try`, which falls through); otherwise at
   * least two `$$n$$` matches, each running to the next "("; otherwise the
   * non-blank sentences, trimmed. "(n)" numbering has no branch here.
   */
  function ParseSuggestions(data: Js.Value, stringify: Js.Value -> string, decode: string -> Option<Js.Value>): (r: seq<string>)
    ensures !Js.Truthy(data) ==> r == []
    ensures Js.Truthy(data) ==>
              var text := TextOf(data, stringify);
              var parsed := decode(text);
              var matches := MatchScan.Matches(text, MatchScan.DollarToParen);
              if parsed.Some? && parsed.value.Arr? && TextItems(parsed.value.items) then r == StrippedItems(parsed.value.items)
              else if |matches| > 1 then r == MatchScan.Stripped(matches, MatchScan.DollarToParen)
              else r == Trimmed(NonBlank(Text.SplitSentences(text)))
  {
    if !Js.Truthy(data) then []
    else
      var text := TextOf(data, stringify);
      var parsed := decode(text);
      if parsed.Some? && parsed.value.Arr? && TextItems(parsed.value.items) then StrippedItems(parsed.value.items)
      else
        var matches := MatchScan.Matches(text, MatchScan.DollarToParen);
        if |matches| > 1 then MatchScan.Stripped(matches, MatchScan.DollarToParen)
        else Trimmed(NonBlank(Text.SplitSentences(text)))
  }

  /** Stripping a marker ends with a `trim`, so a stripped text is its own trim. */
  lemma StripTrimmed(m: string, p: MatchScan.Pattern)
    ensures Text.Trim(MatchScan.Strip(m, p)) == MatchScan.Strip(m, p)
  {
    match MatchScan.MarkerEnd(m, 0, p)
    case None => Text.TrimIdempotent(m);
    case Some(k) => Text.TrimIdempotent(m[k..]);
  }

  /** Every parsed suggestion is already trimmed, whichever branch produced it. */
  lemma SuggestionsTrimmed(data: Js.Value, stringify: Js.Value -> string, decode: string -> Option<Js.Value>)
    ensures forall i :: 0 <= i < |ParseSuggestions(data, stringify, decode)| ==>
              Text.Trim(ParseSuggestions(data, stringify, decode)[i]) == ParseSuggestions(data, stringify, decode)[i]
  {
    var r := ParseSuggestions(data, stringify, decode);
    forall i | 0 <= i < |r|
      ensures Text.Trim(r[i]) == r[i]
    {
      var text := TextOf(data, stringify);
      var parsed := decode(text);
      if parsed.Some? && parsed.value.Arr? && TextItems(parsed.value.items) {
        StripTrimmed(ItemText(parsed.value.items[i]), MatchScan.DollarToParen);
      } else if |MatchScan.Matches(text, MatchScan.DollarToParen)| > 1 {
        StripTrimmed(MatchScan.Matches(text, MatchScan.DollarToParen)[i], MatchScan.DollarToParen);
      } else {
        Text.TrimIdempotent(NonBlank(Text.SplitSentences(text))[i]);
      }
    }
  }

  /** `reportText.split(/\.\s+/).filter(s => s && s.trim())`. */
  function Findings(details: Js.Value, stringify: Js.Value -> string): (r: seq<string>)
    ensures forall f :: f in r <==> Text.Trim(f) != "" && f in Text.SplitSentences(TextOf(details, stringify))
    ensures |r| <= |Text.SplitSentences(TextOf(details, stringify))|
  {
    NonBlank(Text.SplitSentences(TextOf(details, stringify)))
  }

  /** No finding holds a sentence break: each is one sentence of the report text. */
  lemma FindingsAreSentences(details: Js.Value, stringify: Js.Value -> string)
    ensures forall f, k :: f in Findings(details, stringify) ==> !Text.BreakAt(f, k)
  {
    Text.SplitSentencesPieces(TextOf(details, stringify));
  }

  // ---------------------------------------------------------------- listing lines

  /** `${(n).toString().padStart(3, " ")} | ${line}`. */
  function ListingLine(n: nat, line: string): (r: string)
    ensures |r| == (if |Text.NatToString(n)| >= 3 then |Text.NatToString(n)| else 3) + 3 + |line|
    ensures r[|r| - |line|..] == line
  {
    Text.PadStart(Text.NatToString(n), 3, ' ') + " | " + line
  }

  /** Numbers below 1000 have at most three digits. */
  lemma ShortNumber(n: nat)
    requires n < 1000
    ensures |Text.NatToString(n)| <= 3
  {
    if n >= 10 {
      assert Text.NatToString(n) == Text.NatToString(n / 10) + [Text.DigitChar(n % 10)];
      if n / 10 >= 10 {
        assert Text.NatToString(n / 10) == Text.NatToString(n / 100) + [Text.DigitChar(n / 10 % 10)];
      }
    }
  }

  /**
   * Below 1000, a listing line is a 3-character column holding the number
   * right-aligned after spaces, then " | ", then the line itself, and the
   * number reads back from the column.
   */
  lemma ListingLineColumns(n: nat, line: string)
    requires n < 1000
    ensures var r := ListingLine(n, line);
            && |r| == 6 + |line| && r[3..6] == " | " && r[6..] == line
            && exists k :: 0 <= k < 3 && (forall j :: 0 <= j < k ==> r[j] == ' ')
                            && r[k..3] == Text.NatToString(n) && Text.DecimalValue(r[k..3]) == n
  {
    ShortNumber(n);
    var digits := Text.NatToString(n);
    var pad := Text.PadStart(digits, 3, ' ');
    var r := ListingLine(n, line);
    assert r == pad + " | " + line;
    var k := 3 - |digits|;
    assert |pad| == 3;
    assert r[..3] == pad;
    assert r[3..6] == " | " && r[6..] == line;
    assert r[k..3] == pad[k..] == digits;
    assert forall j :: 0 <= j < k ==> r[j] == pad[j] == ' ';
    Text.NatToStringRoundTrip(n);
    assert Text.DecimalValue(r[k..3]) == n;
  }

  /** The listing: line `i` of the code is numbered `i + 1`. */
  function ListingTexts(lines: seq<string>): (r: seq<string>)
    ensures |r| == |lines|
    ensures forall i :: 0 <= i < |r| ==> r[i] == ListingLine(i + 1, lines[i])
  {
    seq(|lines|, i requires 0 <= i < |lines| => ListingLine(i + 1, lines[i]))
  }

  // ---------------------------------------------------------------- the report plan

  /** What the report holds besides its fixed parts: each block is present or not. */
  datatype ReportPlan = ReportPlan(
    metrics: Option<seq<Js.Value>>,
    findings: Option<seq<string>>,
    suggestions: Option<seq<string>>,
    listing: Option<seq<string>>)

  const NULL_TO_OBJECT := "Cannot convert " + "undefined or " + "null to object"

  /** `section?.details` of a search result. */
  function DetailsOf(found: Option<Js.Value>): Js.Value {
    match found
    case None => Js.Undefined
    case Some(section) => Js.Get(section, "details")
  }

  /**
   * The decisions of `generatePDFReport` before it draws: the three section
   * lookups (which throw on a nullish entry met first, and `Object.values`
   * throws on nullish data), a metrics block only when its details are an
   * array, findings and recommendations only when their details are truthy,
   * and a listing only for a non-empty contract.
   */
  function Plan(auditData: Js.Value, contractCode: string, stringify: Js.Value -> string,
                decode: string -> Option<Js.Value>): (r: Result<ReportPlan, Thrown>)
    ensures Js.Nullish(auditData) ==> r == Failure(RuntimeError("TypeError", "", NULL_TO_OBJECT))
    ensures !Js.Nullish(auditData) ==>
              var sections := AuditSections.Normalize(auditData);
              var report := AuditSections.Find(sections, AuditSections.AUDIT_REPORT);
              var suggestions := AuditSections.Find(sections, AuditSections.SUGGESTIONS);
              var metrics := AuditSections.Find(sections, AuditSections.METRIC_SCORES);
              && (r.Failure? <==> report.Failure? || suggestions.Failure? || metrics.Failure?)
              && (r.Success? ==>
                    && (r.value.metrics.Some? <==> DetailsOf(metrics.value).Arr?)
                    && (r.value.metrics.Some? ==> r.value.metrics.value == DetailsOf(metrics.value).items)
                    && (r.value.findings.Some? <==> Js.Truthy(DetailsOf(report.value)))
                    && (r.value.findings.Some? ==> r.value.findings.value == Findings(DetailsOf(report.value), stringify))
                    && (r.value.suggestions.Some? <==> Js.Truthy(DetailsOf(suggestions.value)))
                    && (r.value.suggestions.Some? ==>
                          r.value.suggestions.value == ParseSuggestions(DetailsOf(suggestions.value), stringify, decode)))
    ensures r.Success? ==> (r.value.listing.Some? <==> contractCode != "")
    ensures r.Success? && r.value.listing.Some? ==> r.value.listing.value == Text.SplitOn(contractCode, '\n')
  {
    if Js.Nullish(auditData) then Failure(RuntimeError("TypeError", "", NULL_TO_OBJECT))
    else
      var sections := AuditSections.Normalize(auditData);
      match AuditSections.Find(sections, AuditSections.AUDIT_REPORT)
      case Failure(e) => Failure(e)
      case Success(report) =>
        match AuditSections.Find(sections, AuditSections.SUGGESTIONS)
        case Failure(e) => Failure(e)
        case Success(suggestions) =>
          match AuditSections.Find(sections, AuditSections.METRIC_SCORES)
          case Failure(e) => Failure(e)
          case Success(metrics) =>
            var reportDetails := DetailsOf(report);
            var suggestionDetails := DetailsOf(suggestions);
            var metricDetails := DetailsOf(metrics);
            Success(ReportPlan(
              if metricDetails.Arr? then Some(metricDetails.items) else None,
              if Js.Truthy(reportDetails) then Some(Findings(reportDetails, stringify)) else None,
              if Js.Truthy(suggestionDetails) then Some(ParseSuggestions(suggestionDetails, stringify, decode)) else None,
              if contractCode != "" then Some(Text.SplitOn(contractCode, '\n')) else None))
  }

  /** The metrics block of an array input is the details of its first "Metric Scores" section. */
  lemma PlanMetricsOfArray(sections: seq<Js.Value>, k: nat, details: seq<Js.Value>, contractCode: string,
                           stringify: Js.Value -> string, decode: string -> Option<Js.Value>)
    requires forall i :: 0 <= i < |sections| ==> !Js.Nullish(sections[i])
    requires k < |sections| && sections[k] == AuditSections.Section(AuditSections.METRIC_SCORES, Js.Arr(details))
    requires forall i :: 0 <= i < k ==> !AuditSections.Named(sections[i], AuditSections.METRIC_SCORES)
    ensures Plan(Js.Arr(sections), contractCode, stringify, decode).Success?
    ensures Plan(Js.Arr(sections), contractCode, stringify, decode).value.metrics == Some(details)
  {
    AuditSections.SectionDetails(AuditSections.METRIC_SCORES, Js.Arr(details));
    AuditSections.FindFirstNamed(sections, AuditSections.METRIC_SCORES, k);
    var a := AuditSections.Find(sections, AuditSections.AUDIT_REPORT);
    var b := AuditSections.Find(sections, AuditSections.SUGGESTIONS);
    assert a.Success? && b.Success?;
  }

  // ---------------------------------------------------------------- the texts of each block

  /** The header texts of the first page. */
  function TitleTexts(date: string): seq<string> {
    ["AUDITRONIX", "Smart Contract Audit Report", "Generated: " + date, "Auditor: " + "Auditronix AI " + "(LLaMA-3-70B)"]
  }

  const SUMMARY_TEXT :=
    "This report " + "presents a " + "comprehensive " + "security audit " + "of the " + "submitted smart " +
    "contract. The " + "analysis covers " + "security " + "vulnerabilities," + " " + "gas " + "optimization " +
    "opportunities, " + "code quality, " + "and provides " + "actionable " + "recommendations " + "for improvement."

  const DISCLAIMER_TEXT :=
    "This audit " + "report is " + "generated by " + "Auditronix AI " + "and should be " + "used as a " +
    "starting point " + "for security " + "analysis. It is " + "recommended to " + "have critical " +
    "smart contracts " + "reviewed by " + "multiple " + "security " + "experts and " + "undergo " +
    "comprehensive " + "testing before " + "deployment."

  const FOOTER_TEXTS := ["Report " + "generated by " + "Auditronix AI", "Powered by LLaMA-3-70B"]

  /** The texts `addMetric` places: title, status, and the wrapped description when there is one. */
  function MetricTexts(metric: Js.Value, contentWidth: int, wrap: (string, int) -> seq<string>,
                       show: Js.Value -> string): seq<string>
  {
    var description := Js.Get(metric, "description");
    [MetricTitle(metric, show), "(" + StatusName(MetricStatus(metric)) + ")"]
      + (if Js.Truthy(description) then wrap(BULLET + Interp(description, show), contentWidth - 20) else [])
  }

  /** The texts of the first `|metrics|` metrics, in order. */
  function MetricsTexts(metrics: seq<Js.Value>, contentWidth: int, wrap: (string, int) -> seq<string>,
                        show: Js.Value -> string): seq<string>
  {
    if metrics == [] then []
    else MetricsTexts(metrics[..|metrics| - 1], contentWidth, wrap, show)
         + MetricTexts(metrics[|metrics| - 1], contentWidth, wrap, show)
  }

  /** Finding `index`: its number and its trimmed text ended by a period; a blank one draws nothing. */
  function FindingTexts(index: nat, finding: string, contentWidth: int, wrap: (string, int) -> seq<string>): seq<string> {
    if Text.Trim(finding) != "" then
      [Text.NatToString(index + 1) + "."] + wrap(Text.Trim(finding) + ".", contentWidth - 25)
    else []
  }

  function FindingsTexts(findings: seq<string>, contentWidth: int, wrap: (string, int) -> seq<string>): seq<string> {
    if findings == [] then []
    else FindingsTexts(findings[..|findings| - 1], contentWidth, wrap)
         + FindingTexts(|findings| - 1, findings[|findings| - 1], contentWidth, wrap)
  }

  /**
   * Suggestion `index`: its number in the badge and its text; a blank one
   * draws nothing, and the numbers of the others keep their index.
   */
  function SuggestionTexts(index: nat, suggestion: string, contentWidth: int, wrap: (string, int) -> seq<string>): seq<string> {
    if Text.Trim(suggestion) != "" then [Text.NatToString(index + 1)] + wrap(suggestion, contentWidth - 25)
    else []
  }

  function SuggestionsTexts(suggestions: seq<string>, contentWidth: int, wrap: (string, int) -> seq<string>): seq<string> {
    if suggestions == [] then []
    else SuggestionsTexts(suggestions[..|suggestions| - 1], contentWidth, wrap)
         + SuggestionTexts(|suggestions| - 1, suggestions[|suggestions| - 1], contentWidth, wrap)
  }

  /** A block with its header, or nothing. */
  function Block<T>(header: string, content: Option<T>, texts: T -> seq<string>): seq<string> {
    match content
    case None => []
    case Some(c) => [header] + texts(c)
  }

  /** The banner, the date and auditor lines and the executive summary. */
  function IntroTexts(date: string, contentWidth: int, wrap: (string, int) -> seq<string>): seq<string> {
    TitleTexts(date) + ["EXECUTIVE SUMMARY"] + wrap(SUMMARY_TEXT, contentWidth)
  }

  /** The four optional blocks, in the order of the report. */
  function BlocksTexts(plan: ReportPlan, contentWidth: int, wrap: (string, int) -> seq<string>,
                       show: Js.Value -> string): seq<string>
  {
    Block(METRICS_HEADER, plan.metrics, ms => MetricsTexts(ms, contentWidth, wrap, show))
    + Block(FINDINGS_HEADER, plan.findings, fs => FindingsTexts(fs, contentWidth, wrap))
    + Block(SUGGESTIONS_HEADER, plan.suggestions, ss => SuggestionsTexts(ss, contentWidth, wrap))
    + Block(LISTING_HEADER, plan.listing, ListingTexts)
  }

  /** The disclaimer header and its wrapped text. */
  function DisclaimerTexts(contentWidth: int, wrap: (string, int) -> seq<string>): seq<string> {
    ["DISCLAIMER"] + wrap(DISCLAIMER_TEXT, contentWidth)
  }

  /** Every text of the report before the footer, in drawing order. */
  function ReportTexts(plan: ReportPlan, date: string, contentWidth: int, wrap: (string, int) -> seq<string>,
                       show: Js.Value -> string): seq<string>
  {
    IntroTexts(date, contentWidth, wrap) + BlocksTexts(plan, contentWidth, wrap, show) + DisclaimerTexts(contentWidth, wrap)
  }

  // ---------------------------------------------------------------- the document

  /** A text placed on a page at a position. */
  datatype Placed = Placed(page: nat, x: int, y: int, text: string)

  /** The texts of a sequence of placed texts, in order. */
  function Texts(placed: seq<Placed>): (r: seq<string>)
    ensures |r| == |placed|
    ensures forall i :: 0 <= i < |r| ==> r[i] == placed[i].text
  {
    seq(|placed|, i requires 0 <= i < |placed| => placed[i].text)
  }

  /** Appending a placed text appends its text. */
  lemma TextsAppend(placed: seq<Placed>, p: Placed)
    ensures Texts(placed + [p]) == Texts(placed) + [p.text]
  {
    assert Texts(placed + [p])[|placed|] == p.text;
  }

  /** Texts placed after a prefix: the texts of the whole are those of the prefix and then theirs. */
  lemma TextsExtend(before: seq<Placed>, after: seq<Placed>, added: seq<string>)
    requires |after| == |before| + |added| && after[..|before|] == before
    requires forall j :: |before| <= j < |after| ==> after[j].text == added[j - |before|]
    ensures Texts(after) == Texts(before) + added
  {
    assert forall j :: 0 <= j < |before| ==> after[j] == before[j];
  }

  /** Every text lies above the bottom margin, on a page that exists. */
  predicate FitsOn(placed: seq<Placed>, pageHeight: int, pages: nat) {
    forall i :: 0 <= i < |placed| ==> placed[i].y <= pageHeight - MARGIN && placed[i].page <= pages
  }

  lemma AppendAssoc<T>(a: seq<T>, b: seq<T>, c: seq<T>)
    ensures (a + b) + c == a + (b + c)
  {
  }

  /** Appending a text above the bottom margin, on an existing page, keeps the texts fitting. */
  lemma FitsAppend(placed: seq<Placed>, p: Placed, pageHeight: int, before: nat, after: nat)
    requires FitsOn(placed, pageHeight, before) && before <= after
    requires p.y <= pageHeight - MARGIN && p.page <= after
    ensures FitsOn(placed + [p], pageHeight, after)
  {
  }

  /** The line after `p` is one spacing lower on the same page, or at the top margin of the next. */
  predicate Follows(p: Placed, q: Placed, lineSpacing: int) {
    || (q.page == p.page && q.y == p.y + lineSpacing)
    || (q.page == p.page + 1 && q.y == MARGIN)
  }

  /** From index `from` on, each text follows the one before it. */
  ghost predicate Chained(placed: seq<Placed>, from: nat, lineSpacing: int) {
    forall a, b :: from <= a < b < |placed| && b == a + 1 ==> Follows(placed[a], placed[b], lineSpacing)
  }

  lemma ChainAppend(placed: seq<Placed>, from: nat, p: Placed, lineSpacing: int)
    requires Chained(placed, from, lineSpacing)
    requires from < |placed| ==> Follows(placed[|placed| - 1], p, lineSpacing)
    ensures Chained(placed + [p], from, lineSpacing)
  {
    var r := placed + [p];
    forall a, b | from <= a < b < |r| && b == a + 1
      ensures Follows(r[a], r[b], lineSpacing)
    {
      if b < |placed| {
        assert r[a] == placed[a] && r[b] == placed[b];
      }
    }
  }

  /** From index `from` on, each text leaves `room` above the bottom margin. */
  ghost predicate RoomFrom(placed: seq<Placed>, from: nat, room: int, pageHeight: int) {
    forall j :: from <= j < |placed| ==> placed[j].y + room <= pageHeight - MARGIN
  }

  lemma RoomAppend(placed: seq<Placed>, from: nat, p: Placed, room: int, pageHeight: int)
    requires RoomFrom(placed, from, room, pageHeight) && p.y + room <= pageHeight - MARGIN
    ensures RoomFrom(placed + [p], from, room, pageHeight)
  {
    var r := placed + [p];
    assert forall j :: from <= j < |placed| ==> r[j] == placed[j];
  }

  /** The document being drawn and the closure variable `yPosition`. */
  class Pdf {
    const pageHeight: int
    const pageWidth: int
    var yPosition: int
    var page: nat
    var drawn: seq<Placed>

    predicate Fits()
      reads this
    {
      FitsOn(drawn, pageHeight, page)
    }

    /** `pageWidth - 2 * margin`. */
    function ContentWidth(): int {
      pageWidth - 2 * MARGIN
    }

    /** `new jsPDF()` and `let yPosition = 20`: one empty page. */
    constructor(pageHeight: int, pageWidth: int)
      ensures this.pageHeight == pageHeight && this.pageWidth == pageWidth
      ensures yPosition == 20 && page == 1 && drawn == []
    {
      this.pageHeight := pageHeight;
      this.pageWidth := pageWidth;
      yPosition := 20;
      page := 1;
      drawn := [];
    }

    /** `doc.text(text, x, y)` on the current page. */
    method Draw(text: string, x: int, y: int)
      modifies this
      ensures drawn == old(drawn) + [Placed(page, x, y, text)]
      ensures yPosition == old(yPosition) && page == old(page)
      ensures Texts(drawn) == Texts(old(drawn)) + [text]
      ensures y <= pageHeight - MARGIN && old(Fits()) ==> Fits()
    {
      TextsAppend(drawn, Placed(page, x, y, text));
      if y <= pageHeight - MARGIN && Fits() {
        FitsAppend(drawn, Placed(page, x, y, text), pageHeight, page, page);
      }
      drawn := drawn + [Placed(page, x, y, text)];
    }

    /** `doc.addPage()` and `yPosition = margin`. */
    method AddPage()
      modifies this
      ensures page == old(page) + 1 && yPosition == MARGIN && drawn == old(drawn)
      ensures old(Fits()) ==> Fits()
    {
      page := page + 1;
      yPosition := MARGIN;
    }

    /**
     * `checkNewPage(requiredSpace)`: a new page exactly when the space would
     * reach past the bottom margin. On a page taller than both margins and
     * the space, the space then fits.
     */
    method CheckNewPage(requiredSpace: int)
      modifies this
      ensures old(yPosition) + requiredSpace > pageHeight - MARGIN ==> page == old(page) + 1 && yPosition == MARGIN
      ensures old(yPosition) + requiredSpace <= pageHeight - MARGIN ==> page == old(page) && yPosition == old(yPosition)
      ensures drawn == old(drawn)
      ensures 2 * MARGIN + requiredSpace <= pageHeight ==> yPosition + requiredSpace <= pageHeight - MARGIN
      ensures old(Fits()) ==> Fits()
    {
      if yPosition + requiredSpace > pageHeight - MARGIN {
        AddPage();
      }
    }

    /**
     * `addWrappedText` as written: line `i` goes to `y + i * lineSpacing`
     * whatever `checkNewPage` did, and the result is
     * `y + lines * lineSpacing`. The page check sees the same `yPosition`
     * for every line, so when the first line fits no page is ever added,
     * and after a new page the lines still continue from `y`.
     */
    method AddWrappedText(text: string, x: int, y: int, maxWidth: int, lineSpacing: int,
                          wrap: (string, int) -> seq<string>) returns (end: int)
      modifies this
      ensures end == y + |wrap(text, maxWidth)| * lineSpacing
      ensures |drawn| == |old(drawn)| + |wrap(text, maxWidth)| && drawn[..|old(drawn)|] == old(drawn)
      ensures forall j :: |old(drawn)| <= j < |drawn| ==>
                && drawn[j].x == x
                && drawn[j].y == y + (j - |old(drawn)|) * lineSpacing
                && drawn[j].text == wrap(text, maxWidth)[j - |old(drawn)|]
      ensures old(yPosition) + lineSpacing + 5 <= pageHeight - MARGIN ==> page == old(page) && yPosition == old(yPosition)
      ensures 2 * MARGIN + lineSpacing + 5 <= pageHeight ==> page <= old(page) + 1
      ensures yPosition == old(yPosition) || yPosition == MARGIN
    {
      var lines := wrap(text, maxWidth);
      var i := 0;
      while i < |lines|
        invariant 0 <= i <= |lines|
        invariant |drawn| == |old(drawn)| + i && drawn[..|old(drawn)|] == old(drawn)
        invariant forall j :: |old(drawn)| <= j < |drawn| ==>
                    && drawn[j].x == x
                    && drawn[j].y == y + (j - |old(drawn)|) * lineSpacing
                    && drawn[j].text == lines[j - |old(drawn)|]
        invariant old(yPosition) + lineSpacing + 5 <= pageHeight - MARGIN ==> page == old(page) && yPosition == old(yPosition)
        invariant 2 * MARGIN + lineSpacing + 5 <= pageHeight ==>
                    page == old(page) || (page == old(page) + 1 && yPosition == MARGIN)
        invariant yPosition == old(yPosition) || yPosition == MARGIN
      {
        CheckNewPage(lineSpacing + 5);
        Draw(lines[i], x, y + i * lineSpacing);
        i := i + 1;
      }
      end := y + |lines| * lineSpacing;
    }

    /**
     * One line of a wrapped text with the cursor advanced: the page check
     * for the line, the line at the cursor, the cursor one spacing down.
     */
    method PlaceLine(line: string, x: int, lineSpacing: int)
      modifies this
      ensures drawn == old(drawn) + [Placed(page, x, yPosition - lineSpacing, line)]
      ensures old(yPosition) + lineSpacing + 5 > pageHeight - MARGIN ==> page == old(page) + 1 && yPosition == MARGIN + lineSpacing
      ensures old(yPosition) + lineSpacing + 5 <= pageHeight - MARGIN ==> page == old(page) && yPosition == old(yPosition) + lineSpacing
      ensures 2 * MARGIN + lineSpacing + 5 <= pageHeight ==> yPosition + 5 <= pageHeight - MARGIN
    {
      CheckNewPage(lineSpacing + 5);
      Draw(line, x, yPosition);
      yPosition := yPosition + lineSpacing;
    }

    /**
     * `addWrappedText` with the cursor advanced line by line: each line is
     * placed at `yPosition` after its own page check. On a page taller than
     * both margins and a line, every line keeps the room it asked for above
     * the bottom margin, and the next line is either one spacing lower on
     * the same page or at the top margin of the next one.
     */
    method AddWrappedTextPaged(text: string, x: int, maxWidth: int, lineSpacing: int,
                               wrap: (string, int) -> seq<string>) returns (end: int)
      modifies this
      ensures end == yPosition
      ensures Texts(drawn) == Texts(old(drawn)) + wrap(text, maxWidth)
      ensures |old(drawn)| <= |drawn| && drawn[..|old(drawn)|] == old(drawn)
      ensures forall j :: |old(drawn)| <= j < |drawn| ==> drawn[j].x == x
      ensures Chained(drawn, |old(drawn)|, lineSpacing)
      ensures 2 * MARGIN + lineSpacing + 5 <= pageHeight ==> RoomFrom(drawn, |old(drawn)|, lineSpacing + 5, pageHeight)
      ensures 2 * MARGIN + lineSpacing + 5 <= pageHeight && 0 <= lineSpacing + 5 && old(Fits()) ==> Fits()
      ensures 2 * MARGIN + lineSpacing + 5 <= pageHeight && wrap(text, maxWidth) != [] ==> yPosition + 5 <= pageHeight - MARGIN
      ensures page >= old(page)
      ensures wrap(text, maxWidth) == [] ==> yPosition == old(yPosition) && page == old(page)
    {
      var lines := wrap(text, maxWidth);
      var fits := 2 * MARGIN + lineSpacing + 5 <= pageHeight;
      var i := 0;
      while i < |lines|
        invariant 0 <= i <= |lines|
        invariant |drawn| == |old(drawn)| + i && drawn[..|old(drawn)|] == old(drawn)
        invariant forall j :: |old(drawn)| <= j < |drawn| ==> drawn[j].x == x && drawn[j].text == lines[j - |old(drawn)|]
        invariant i > 0 ==> drawn[|drawn| - 1].y + lineSpacing == yPosition && drawn[|drawn| - 1].page == page
        invariant Chained(drawn, |old(drawn)|, lineSpacing)
        invariant fits ==> RoomFrom(drawn, |old(drawn)|, lineSpacing + 5, pageHeight)
        invariant fits && 0 <= lineSpacing + 5 && old(Fits()) ==> Fits()
        invariant fits && i > 0 ==> yPosition + 5 <= pageHeight - MARGIN
        invariant page >= old(page)
        invariant i == 0 ==> yPosition == old(yPosition) && page == old(page)
      {
        ghost var before := drawn;
        ghost var pageBefore := page;
        PlaceLine(lines[i], x, lineSpacing);
        var p := drawn[|drawn| - 1];
        ChainAppend(before, |old(drawn)|, p, lineSpacing);
        if fits {
          RoomAppend(before, |old(drawn)|, p, lineSpacing + 5, pageHeight);
          if 0 <= lineSpacing + 5 && old(Fits()) {
            FitsAppend(before, p, pageHeight, pageBefore, page);
          }
        }
        i := i + 1;
      }
      TextsExtend(old(drawn), drawn, lines);
      end := yPosition;
    }

    /**
     * A wrapped text placed by `AddWrappedTextPaged`, as the blocks of the
     * report rely on it: its lines are drawn, and on a page taller than both
     * margins and a line they fit.
     */
    method AddLines(text: string, x: int, maxWidth: int, lineSpacing: int,
                    wrap: (string, int) -> seq<string>)
      modifies this
      ensures Texts(drawn) == Texts(old(drawn)) + wrap(text, maxWidth)
      ensures 2 * MARGIN + lineSpacing + 5 <= pageHeight && 0 <= lineSpacing + 5 && old(Fits()) ==> Fits()
    {
      yPosition := AddWrappedTextPaged(text, x, maxWidth, lineSpacing, wrap);
    }

    /** `addSectionHeader(title)`: 25 units of room, the title 3 below the cursor, then 20 down. */
    method AddSectionHeader(title: string)
      modifies this
      ensures Texts(drawn) == Texts(old(drawn)) + [title]
      ensures old(yPosition) + 25 > pageHeight - MARGIN ==> page == old(page) + 1 && yPosition == MARGIN + 20
      ensures old(yPosition) + 25 <= pageHeight - MARGIN ==> page == old(page) && yPosition == old(yPosition) + 20
      ensures 2 * MARGIN + 25 <= pageHeight && old(Fits()) ==> Fits()
    {
      CheckNewPage(25);
      Draw(title, MARGIN + 5, yPosition + 3);
      yPosition := yPosition + 20;
    }

    /** The head line of a metric: its title and, 120 units to the right, its status, after 30 units of room. */
    method AddMetricHead(title: string, status: string)
      modifies this
      ensures Texts(drawn) == Texts(old(drawn)) + [title, status]
      ensures 2 * MARGIN + 30 <= pageHeight && old(Fits()) ==> Fits()
    {
      CheckNewPage(30);
      Draw(title, MARGIN, yPosition);
      Draw(status, MARGIN + 120, yPosition);
      assert Texts(old(drawn)) + [title] + [status] == Texts(old(drawn)) + [title, status];
      yPosition := yPosition + 8;
    }

    /** `addMetric(metric)`: 30 units of room, title and status, 8 down, the description, 8 down. */
    method AddMetric(metric: Js.Value, wrap: (string, int) -> seq<string>, show: Js.Value -> string)
      modifies this
      ensures Texts(drawn) == Texts(old(drawn)) + MetricTexts(metric, ContentWidth(), wrap, show)
      ensures 2 * MARGIN + 30 <= pageHeight && old(Fits()) ==> Fits()
    {
      ghost var t0 := Texts(drawn);
      var title := MetricTitle(metric, show);
      var status := "(" + StatusName(MetricStatus(metric)) + ")";
      AddMetricHead(title, status);
      var description := Js.Get(metric, "description");
      ghost var lines: seq<string> := [];
      if Js.Truthy(description) {
        lines := wrap(BULLET + Interp(description, show), ContentWidth() - 20);
        AddLines(BULLET + Interp(description, show), MARGIN + 10, ContentWidth() - 20, 5, wrap);
      }
      assert Texts(drawn) == (t0 + [title, status]) + lines;
      AppendAssoc(t0, [title, status], lines);
      yPosition := yPosition + 8;
    }

    /** `metrics.details.forEach(metric => addMetric(metric))`. */
    method AddMetrics(metrics: seq<Js.Value>, wrap: (string, int) -> seq<string>, show: Js.Value -> string)
      modifies this
      ensures Texts(drawn) == Texts(old(drawn)) + MetricsTexts(metrics, ContentWidth(), wrap, show)
      ensures 2 * MARGIN + 30 <= pageHeight && old(Fits()) ==> Fits()
    {
      var i := 0;
      while i < |metrics|
        invariant 0 <= i <= |metrics|
        invariant Texts(drawn) == Texts(old(drawn)) + MetricsTexts(metrics[..i], ContentWidth(), wrap, show)
        invariant 2 * MARGIN + 30 <= pageHeight && old(Fits()) ==> Fits()
      {
        AddMetric(metrics[i], wrap, show);
        assert metrics[..i + 1][..i] == metrics[..i];
        AppendAssoc(Texts(old(drawn)), MetricsTexts(metrics[..i], ContentWidth(), wrap, show),
                    MetricTexts(metrics[i], ContentWidth(), wrap, show));
        i := i + 1;
      }
      assert metrics[..i] == metrics;
    }

    /** One finding: 20 units of room, its number, the wrapped finding, 5 down; a blank one draws nothing. */
    method AddFinding(index: nat, finding: string, wrap: (string, int) -> seq<string>)
      modifies this
      ensures Texts(drawn) == Texts(old(drawn)) + FindingTexts(index, finding, ContentWidth(), wrap)
      ensures 2 * MARGIN + 20 <= pageHeight && old(Fits()) ==> Fits()
    {
      if Text.Trim(finding) != "" {
        CheckNewPage(20);
        Draw(Text.NatToString(index + 1) + ".", MARGIN, yPosition);
        AddLines(Text.Trim(finding) + ".", MARGIN + 15, ContentWidth() - 25, 6, wrap);
        AppendAssoc(Texts(old(drawn)), [Text.NatToString(index + 1) + "."], wrap(Text.Trim(finding) + ".", ContentWidth() - 25));
        yPosition := yPosition + 5;
      }
    }

    /** `findings.forEach(...)`. */
    method AddFindings(findings: seq<string>, wrap: (string, int) -> seq<string>)
      modifies this
      ensures Texts(drawn) == Texts(old(drawn)) + FindingsTexts(findings, ContentWidth(), wrap)
      ensures 2 * MARGIN + 20 <= pageHeight && old(Fits()) ==> Fits()
    {
      var i := 0;
      while i < |findings|
        invariant 0 <= i <= |findings|
        invariant Texts(drawn) == Texts(old(drawn)) + FindingsTexts(findings[..i], ContentWidth(), wrap)
        invariant 2 * MARGIN + 20 <= pageHeight && old(Fits()) ==> Fits()
      {
        AddFinding(i, findings[i], wrap);
        assert findings[..i + 1][..i] == findings[..i];
        AppendAssoc(Texts(old(drawn)), FindingsTexts(findings[..i], ContentWidth(), wrap),
                    FindingTexts(i, findings[i], ContentWidth(), wrap));
        i := i + 1;
      }
      assert findings[..i] == findings;
    }

    /** One recommendation: 25 units of room, its badge number, the wrapped text, 8 down; a blank one draws nothing. */
    method AddSuggestion(index: nat, suggestion: string, wrap: (string, int) -> seq<string>)
      modifies this
      ensures Texts(drawn) == Texts(old(drawn)) + SuggestionTexts(index, suggestion, ContentWidth(), wrap)
      ensures 2 * MARGIN + 25 <= pageHeight && old(Fits()) ==> Fits()
    {
      if Text.Trim(suggestion) != "" {
        CheckNewPage(25);
        Draw(Text.NatToString(index + 1), MARGIN + 3, yPosition + 1);
        AddLines(suggestion, MARGIN + 15, ContentWidth() - 25, 6, wrap);
        AppendAssoc(Texts(old(drawn)), [Text.NatToString(index + 1)], wrap(suggestion, ContentWidth() - 25));
        yPosition := yPosition + 8;
      }
    }

    /** `suggestionsList.forEach(...)`. */
    method AddSuggestions(suggestions: seq<string>, wrap: (string, int) -> seq<string>)
      modifies this
      ensures Texts(drawn) == Texts(old(drawn)) + SuggestionsTexts(suggestions, ContentWidth(), wrap)
      ensures 2 * MARGIN + 25 <= pageHeight && old(Fits()) ==> Fits()
    {
      var i := 0;
      while i < |suggestions|
        invariant 0 <= i <= |suggestions|
        invariant Texts(drawn) == Texts(old(drawn)) + SuggestionsTexts(suggestions[..i], ContentWidth(), wrap)
        invariant 2 * MARGIN + 25 <= pageHeight && old(Fits()) ==> Fits()
      {
        AddSuggestion(i, suggestions[i], wrap);
        assert suggestions[..i + 1][..i] == suggestions[..i];
        AppendAssoc(Texts(old(drawn)), SuggestionsTexts(suggestions[..i], ContentWidth(), wrap),
                    SuggestionTexts(i, suggestions[i], ContentWidth(), wrap));
        i := i + 1;
      }
      assert suggestions[..i] == suggestions;
    }

    /** The code listing loop: 4 units of room per line, the numbered line, 4 down. */
    method AddListing(lines: seq<string>)
      modifies this
      ensures Texts(drawn) == Texts(old(drawn)) + ListingTexts(lines)
      ensures 2 * MARGIN + 4 <= pageHeight && old(Fits()) ==> Fits()
    {
      var i := 0;
      while i < |lines|
        invariant 0 <= i <= |lines|
        invariant Texts(drawn) == Texts(old(drawn)) + ListingTexts(lines[..i])
        invariant 2 * MARGIN + 4 <= pageHeight && old(Fits()) ==> Fits()
      {
        CheckNewPage(4);
        Draw(ListingLine(i + 1, lines[i]), MARGIN, yPosition);
        assert ListingTexts(lines[..i + 1]) == ListingTexts(lines[..i]) + [ListingLine(i + 1, lines[i])];
        yPosition := yPosition + 4;
        i := i + 1;
      }
      assert lines[..i] == lines;
    }

    /** The banner texts and the date and auditor lines; the cursor ends at 76. */
    method AddTitle(date: string)
      modifies this
      ensures Texts(drawn) == Texts(old(drawn)) + TitleTexts(date)
      ensures yPosition == 76 && page == old(page)
      ensures 81 <= pageHeight && old(Fits()) ==> Fits()
    {
      Draw("AUDITRONIX", MARGIN, 25);
      Draw("Smart Contract Audit Report", MARGIN, 35);
      yPosition := 55;
      Draw("Generated: " + date, MARGIN, yPosition);
      yPosition := yPosition + 6;
      Draw("Auditor: " + "Auditronix AI " + "(LLaMA-3-70B)", MARGIN, yPosition);
      yPosition := yPosition + 15;
    }

    /** The title and the executive summary, 15 below it. */
    method AddIntro(date: string, wrap: (string, int) -> seq<string>)
      modifies this
      ensures Texts(drawn) == Texts(old(drawn)) + IntroTexts(date, ContentWidth(), wrap)
      ensures 81 <= pageHeight && old(Fits()) ==> Fits()
    {
      AddTitle(date);
      AddSectionHeader("EXECUTIVE SUMMARY");
      AppendAssoc(Texts(old(drawn)), TitleTexts(date), ["EXECUTIVE SUMMARY"]);
      AddLines(SUMMARY_TEXT, MARGIN, ContentWidth(), 6, wrap);
      AppendAssoc(Texts(old(drawn)), TitleTexts(date) + ["EXECUTIVE SUMMARY"], wrap(SUMMARY_TEXT, ContentWidth()));
      yPosition := yPosition + 15;
    }

    /** The metrics block, when the report has one: its header, the metrics, 10 below. */
    method AddMetricsBlock(metrics: Option<seq<Js.Value>>, wrap: (string, int) -> seq<string>, show: Js.Value -> string)
      modifies this
      ensures Texts(drawn) == Texts(old(drawn)) + Block(METRICS_HEADER, metrics, ms => MetricsTexts(ms, ContentWidth(), wrap, show))
      ensures 81 <= pageHeight && old(Fits()) ==> Fits()
    {
      if metrics.Some? {
        AddSectionHeader(METRICS_HEADER);
        AddMetrics(metrics.value, wrap, show);
        AppendAssoc(Texts(old(drawn)), [METRICS_HEADER], MetricsTexts(metrics.value, ContentWidth(), wrap, show));
        yPosition := yPosition + 10;
      }
    }

    /** The findings block, when the report has one. */
    method AddFindingsBlock(findings: Option<seq<string>>, wrap: (string, int) -> seq<string>)
      modifies this
      ensures Texts(drawn) == Texts(old(drawn)) + Block(FINDINGS_HEADER, findings, fs => FindingsTexts(fs, ContentWidth(), wrap))
      ensures 81 <= pageHeight && old(Fits()) ==> Fits()
    {
      if findings.Some? {
        AddSectionHeader(FINDINGS_HEADER);
        AddFindings(findings.value, wrap);
        AppendAssoc(Texts(old(drawn)), [FINDINGS_HEADER], FindingsTexts(findings.value, ContentWidth(), wrap));
        yPosition := yPosition + 10;
      }
    }

    /** The recommendations block, when the report has one. */
    method AddSuggestionsBlock(suggestions: Option<seq<string>>, wrap: (string, int) -> seq<string>)
      modifies this
      ensures Texts(drawn) == Texts(old(drawn))
                + Block(SUGGESTIONS_HEADER, suggestions, ss => SuggestionsTexts(ss, ContentWidth(), wrap))
      ensures 81 <= pageHeight && old(Fits()) ==> Fits()
    {
      if suggestions.Some? {
        AddSectionHeader(SUGGESTIONS_HEADER);
        AddSuggestions(suggestions.value, wrap);
        AppendAssoc(Texts(old(drawn)), [SUGGESTIONS_HEADER], SuggestionsTexts(suggestions.value, ContentWidth(), wrap));
        yPosition := yPosition + 10;
      }
    }

    /** The listing block, when the report has one: 30 units of room, its header, the numbered lines. */
    method AddListingBlock(listing: Option<seq<string>>)
      modifies this
      ensures Texts(drawn) == Texts(old(drawn)) + Block(LISTING_HEADER, listing, ListingTexts)
      ensures 81 <= pageHeight && old(Fits()) ==> Fits()
    {
      if listing.Some? {
        CheckNewPage(30);
        AddSectionHeader(LISTING_HEADER);
        AddListing(listing.value);
        AppendAssoc(Texts(old(drawn)), [LISTING_HEADER], ListingTexts(listing.value));
      }
    }

    /** The four optional blocks of the plan, in order. */
    method AddBlocks(plan: ReportPlan, wrap: (string, int) -> seq<string>, show: Js.Value -> string)
      modifies this
      ensures Texts(drawn) == Texts(old(drawn)) + BlocksTexts(plan, ContentWidth(), wrap, show)
      ensures 81 <= pageHeight && old(Fits()) ==> Fits()
    {
      var cw := ContentWidth();
      ghost var t0 := Texts(drawn);
      ghost var b1 := Block(METRICS_HEADER, plan.metrics, ms => MetricsTexts(ms, cw, wrap, show));
      ghost var b2 := Block(FINDINGS_HEADER, plan.findings, fs => FindingsTexts(fs, cw, wrap));
      ghost var b3 := Block(SUGGESTIONS_HEADER, plan.suggestions, ss => SuggestionsTexts(ss, cw, wrap));
      ghost var b4 := Block(LISTING_HEADER, plan.listing, ListingTexts);
      AddMetricsBlock(plan.metrics, wrap, show);
      assert Texts(drawn) == t0 + b1;
      AddFindingsBlock(plan.findings, wrap);
      assert Texts(drawn) == t0 + b1 + b2;
      AddSuggestionsBlock(plan.suggestions, wrap);
      AppendAssoc(t0, b1, b2);
      assert Texts(drawn) == t0 + (b1 + b2) + b3;
      AppendAssoc(t0, b1 + b2, b3);
      AddListingBlock(plan.listing);
      assert Texts(drawn) == t0 + (b1 + b2 + b3) + b4;
      AppendAssoc(t0, b1 + b2 + b3, b4);
    }

    /** The disclaimer on a page of its own, 20 below it. */
    method AddDisclaimer(wrap: (string, int) -> seq<string>)
      modifies this
      ensures Texts(drawn) == Texts(old(drawn)) + DisclaimerTexts(ContentWidth(), wrap)
      ensures 81 <= pageHeight && old(Fits()) ==> Fits()
    {
      AddPage();
      AddSectionHeader("DISCLAIMER");
      AddLines(DISCLAIMER_TEXT, MARGIN, ContentWidth(), 6, wrap);
      AppendAssoc(Texts(old(drawn)), ["DISCLAIMER"], wrap(DISCLAIMER_TEXT, ContentWidth()));
      yPosition := yPosition + 20;
    }

    /** Every block of the report up to the footer. */
    method AddBody(plan: ReportPlan, date: string, wrap: (string, int) -> seq<string>, show: Js.Value -> string)
      modifies this
      ensures Texts(drawn) == Texts(old(drawn)) + ReportTexts(plan, date, ContentWidth(), wrap, show)
      ensures 81 <= pageHeight && old(Fits()) ==> Fits()
    {
      ghost var t0 := Texts(drawn);
      ghost var intro := IntroTexts(date, ContentWidth(), wrap);
      ghost var blocks := BlocksTexts(plan, ContentWidth(), wrap, show);
      AddIntro(date, wrap);
      AddBlocks(plan, wrap, show);
      AppendAssoc(t0, intro, blocks);
      AddDisclaimer(wrap);
      AppendAssoc(t0, intro + blocks, DisclaimerTexts(ContentWidth(), wrap));
    }

    /** The closing banner, drawn 10 and 20 below the cursor without a page check. */
    method AddFooter()
      modifies this
      ensures |drawn| == |old(drawn)| + 2 && drawn[..|old(drawn)|] == old(drawn)
      ensures Texts(drawn) == Texts(old(drawn)) + FOOTER_TEXTS
      ensures drawn[|drawn| - 2].y == yPosition + 10 && drawn[|drawn| - 1].y == yPosition + 20
      ensures yPosition == old(yPosition) && page == old(page)
    {
      Draw(FOOTER_TEXTS[0], MARGIN + 10, yPosition + 10);
      Draw(FOOTER_TEXTS[1], MARGIN + 10, yPosition + 20);
    }
  }

  /**
   * `generatePDFReport(auditData, contractCode)`: the lookups either throw
   * before anything is drawn, or the document holds every text of the plan
   * and then the footer. On a page tall enough for the banner, every text
   * before the footer lies above the bottom margin.
   */
  method GenerateReport(auditData: Js.Value, contractCode: string, date: string, pageHeight: int, pageWidth: int,
                        wrap: (string, int) -> seq<string>, show: Js.Value -> string,
                        stringify: Js.Value -> string, decode: string -> Option<Js.Value>)
    returns (r: Result<Pdf, Thrown>)
    ensures r.Failure? <==> Plan(auditData, contractCode, stringify, decode).Failure?
    ensures r.Failure? ==> r.error == Plan(auditData, contractCode, stringify, decode).error
    ensures r.Success? ==>
              && fresh(r.value) && r.value.pageHeight == pageHeight
              && Texts(r.value.drawn)
                 == ReportTexts(Plan(auditData, contractCode, stringify, decode).value, date, pageWidth - 2 * MARGIN, wrap, show)
                    + FOOTER_TEXTS
              && |r.value.drawn| >= 2
              && (81 <= pageHeight ==> FitsOn(r.value.drawn[..|r.value.drawn| - 2], pageHeight, r.value.page))
  {
    var planned := Plan(auditData, contractCode, stringify, decode);
    if planned.Failure? {
      r := Failure(planned.error);
    } else {
      var doc := Render(planned.value, date, pageHeight, pageWidth, wrap, show);
      r := Success(doc);
    }
  }

  /** A new document with every text of the plan and then the footer. */
  method Render(plan: ReportPlan, date: string, pageHeight: int, pageWidth: int,
                wrap: (string, int) -> seq<string>, show: Js.Value -> string)
    returns (doc: Pdf)
    ensures fresh(doc) && doc.pageHeight == pageHeight
    ensures Texts(doc.drawn) == ReportTexts(plan, date, pageWidth - 2 * MARGIN, wrap, show) + FOOTER_TEXTS
    ensures |doc.drawn| >= 2
    ensures 81 <= pageHeight ==> FitsOn(doc.drawn[..|doc.drawn| - 2], pageHeight, doc.page)
  {
    doc := new Pdf(pageHeight, pageWidth);
    assert Texts(doc.drawn) == [];
    doc.AddBody(plan, date, wrap, show);
    ghost var body := doc.drawn;
    ghost var texts := Texts(body);
    assert texts == ReportTexts(plan, date, pageWidth - 2 * MARGIN, wrap, show);
    doc.AddFooter();
    assert doc.drawn[..|doc.drawn| - 2] == body;
  }

  const PDF_FAILED := "Failed to generate PDF report"

  /** `generatePDFReportFromData`: any error of the report becomes "Failed to generate PDF report". */
  method GenerateFromData(auditData: Js.Value, contractCode: string, date: string, pageHeight: int, pageWidth: int,
                          wrap: (string, int) -> seq<string>, show: Js.Value -> string,
                          stringify: Js.Value -> string, decode: string -> Option<Js.Value>)
    returns (r: Result<Pdf, Thrown>)
    ensures r.Failure? <==> Plan(auditData, contractCode, stringify, decode).Failure?
    ensures r.Failure? ==> r.error == RuntimeError("Error", "", PDF_FAILED)
    ensures r.Success? ==>
              Texts(r.value.drawn)
              == ReportTexts(Plan(auditData, contractCode, stringify, decode).value, date, pageWidth - 2 * MARGIN, wrap, show)
                 + FOOTER_TEXTS
  {
    var report := GenerateReport(auditData, contractCode, date, pageHeight, pageWidth, wrap, show, stringify, decode);
    match report
    case Failure(_) =>
      r := Failure(RuntimeError("Error", "", PDF_FAILED));
    case Success(doc) =>
      r := Success(doc);
  }

  /**
   * `addWrappedText` as written runs off the page: on an A4 page (297 high)
   * with the cursor at 200, a text wrapped into 20 lines at spacing 6 is
   * drawn on one page down to 314, below the page itself.
   */
  method AsWrittenOverflow() returns (doc: Pdf)
    ensures doc.pageHeight == 297 && doc.page == 1 && |doc.drawn| == 20
    ensures doc.drawn[19].y == 314 && doc.drawn[19].y > doc.pageHeight
  {
    doc := new Pdf(297, 210);
    doc.yPosition := 200;
    var wrap := (t: string, w: int) => seq(20, _ => t);
    var end := doc.AddWrappedText("x", MARGIN, 200, doc.ContentWidth(), 6, wrap);
  }
}
