/**
 * The text of `AUDIT_PROMPT_TEMPLATE`: a head, the `{CONTRACT}` placeholder
 * and the JSON skeleton of the three sections the model is asked to fill in,
 * whose eight metric entries share one shape.
 *
 * The literals are cut into pieces of at most 36 characters, and each piece
 * carries its own lemma that it has no `{`, or that each of its `{` ends a
 * line: together these show that the placeholder occurs in the template once.
 */
module PromptText {
  import Text

  const PLACEHOLDER: string := "{CONTRACT}"

  /** The template text before the placeholder. */
  const PROMPT_HEAD: string :=
    "Your role and goal is to be an AI Sm" +
    "art Contract Auditor. Your job is to" +
    " perform an audit on the given smart" +
    " contract. Here is the smart contrac" +
    "t: "

  /** The request for the array format, ending with the opening bracket. */
  const FORMAT_INTRO: string :=
    ".\n\nPlease provide the results in the" +
    " following array format for easy fro" +
    "nt-end display:\n\n[\n"

  /** The `details` line of the "Audit Report" section and its closing brace. */
  const AUDIT_REPORT_DETAILS: string :=
    "    \"details\": \"A detailed audit rep" +
    "ort of the smart contract, covering " +
    "security, performance, and any other" +
    " relevant aspects.\"\n  },\n"

  /** The `details` line of the "Suggestions for Improvement" section. */
  const SUGGESTIONS_DETAILS: string :=
    "    \"details\": \"Provide numbered sug" +
    "gestions (1), (2), (3), etc. for imp" +
    "roving the smart contract in terms o" +
    "f security, performance, and any oth" +
    "er identified weaknesses. Each sugge" +
    "stion should be on a separate line o" +
    "r clearly numbered.\"\n"

  /** The closing of the last section, of the array and the sign-off. */
  const FORMAT_CLOSING: string :=
    "  }\n]\n\nThank you."

  /** The metric names, in the order the template lists them. */
  const TEMPLATE_METRICS: seq<string> := [
    "Security Vulnerabilities",
    "Gas Optimization",
    "Code Quality",
    "Access Control",
    "Input Validation",
    "Business Logic",
    "Upgradability",
    "Documentation"
  ]

  /** The description of each metric, in the same order. */
  const TEMPLATE_METRIC_DESCRIPTIONS: seq<string> := [
    "Reentrancy, overflow, access control issues",
    "Efficient loops, storage usage, " + "function calls",
    "Readability, modularity, best practices",
    "Proper permissions and role management",
    "Parameter checks and edge case handling",
    "Logic correctness and edge cases",
    "Proxy patterns and upgrade safety",
    "Comments, NatSpec, and code clarity"
  ]

  const AUDIT_REPORT: string := "Audit Report"
  const METRIC_SCORES: string := "Metric Scores"
  const SUGGESTIONS_FOR_IMPROVEMENT: string := "Suggestions for Improvement"

  const SECTION_OPEN: string := "  {\n    \"section\": \""
  const SECTION_NAME_END: string := "\",\n"
  const METRIC_OPEN: string := "      {\n        \"metric\": \""
  const METRIC_NAME_END: string := "\",\n        \"score\": 0-10,\n"
  const METRIC_DESCRIPTION_KEY: string := "        \"description\": \""
  const METRIC_CLOSE: string := "\"\n      }"
  const DETAILS_OPEN: string := "    \"details\": [\n"
  const DETAILS_CLOSE: string := "    ]\n  },\n"

  /** The opening of one section object: `{` and its `"section"` key. */
  function SectionHeader(name: string): string {
    SECTION_OPEN + name + SECTION_NAME_END
  }

  /** One object of the "Metric Scores" details array. */
  function MetricEntry(name: string, description: string): string {
    METRIC_OPEN + name + METRIC_NAME_END + METRIC_DESCRIPTION_KEY + description + METRIC_CLOSE
  }

  /** The metric objects, separated by commas, one per line. */
  function MetricEntries(names: seq<string>, descriptions: seq<string>): string
    requires |names| == |descriptions| >= 1
  {
    if |names| == 1 then MetricEntry(names[0], descriptions[0]) + "\n"
    else MetricEntry(names[0], descriptions[0]) + ",\n" + MetricEntries(names[1..], descriptions[1..])
  }

  /** The "Audit Report" section object. */
  const REPORT_SECTION: string := SectionHeader(AUDIT_REPORT) + AUDIT_REPORT_DETAILS

  /** The "Metric Scores" section object, whose details list the eight metrics. */
  const METRICS_SECTION: string :=
    SectionHeader(METRIC_SCORES) + DETAILS_OPEN
    + MetricEntries(TEMPLATE_METRICS, TEMPLATE_METRIC_DESCRIPTIONS) + DETAILS_CLOSE

  /** The "Suggestions for Improvement" section object, up to its closing brace. */
  const SUGGESTIONS_SECTION: string := SectionHeader(SUGGESTIONS_FOR_IMPROVEMENT) + SUGGESTIONS_DETAILS

  /** The template text after the placeholder. */
  const PROMPT_TAIL: string :=
    FORMAT_INTRO + REPORT_SECTION + METRICS_SECTION + SUGGESTIONS_SECTION + FORMAT_CLOSING

  /** `AUDIT_PROMPT_TEMPLATE`. */
  const AUDIT_PROMPT_TEMPLATE: string := PROMPT_HEAD + PLACEHOLDER + PROMPT_TAIL

  /** Every `{` of `s` is immediately followed by a line break. */
  predicate BracesOpenLines(s: string) {
    forall i :: 0 <= i < |s| && s[i] == '{' ==> i + 1 < |s| && s[i + 1] == '\n'
  }

  lemma BraceFreeOpensLines(s: string)
    requires '{' !in s
    ensures BracesOpenLines(s)
  {
    forall i | 0 <= i < |s|
      ensures s[i] != '{'
    {
      assert s[i] in s;
    }
  }

  lemma BracesOpenLinesConcat(a: string, b: string)
    requires BracesOpenLines(a) && BracesOpenLines(b)
    ensures BracesOpenLines(a + b)
  {
    forall i | 0 <= i < |a + b| && (a + b)[i] == '{'
      ensures i + 1 < |a + b| && (a + b)[i + 1] == '\n'
    {
      if i >= |a| {
        assert b[i - |a|] == '{';
      }
    }
  }

  lemma HeadPiece0() ensures '{' !in "Your role and goal is to be an AI Sm" {}
  lemma HeadPiece1() ensures '{' !in "art Contract Auditor. Your job is to" {}
  lemma HeadPiece2() ensures '{' !in " perform an audit on the given smart" {}
  lemma HeadPiece3() ensures '{' !in " contract. Here is the smart contrac" {}
  lemma HeadPiece4() ensures '{' !in "t: " {}
  lemma HeadBraceFree()
    ensures '{' !in PROMPT_HEAD
  {
    HeadPiece0(); HeadPiece1(); HeadPiece2(); HeadPiece3(); HeadPiece4();
  }

  lemma IntroPiece0() ensures '{' !in ".\n\nPlease provide the results in the" {}
  lemma IntroPiece1() ensures '{' !in " following array format for easy fro" {}
  lemma IntroPiece2() ensures '{' !in "nt-end display:\n\n[\n" {}
  lemma IntroBraceFree()
    ensures '{' !in FORMAT_INTRO
  {
    IntroPiece0(); IntroPiece1(); IntroPiece2();
  }

  lemma ReportDetailsPiece0() ensures '{' !in "    \"details\": \"A detailed audit rep" {}
  lemma ReportDetailsPiece1() ensures '{' !in "ort of the smart contract, covering " {}
  lemma ReportDetailsPiece2() ensures '{' !in "security, performance, and any other" {}
  lemma ReportDetailsPiece3() ensures '{' !in " relevant aspects.\"\n  },\n" {}
  lemma ReportDetailsBraceFree()
    ensures '{' !in AUDIT_REPORT_DETAILS
  {
    ReportDetailsPiece0(); ReportDetailsPiece1(); ReportDetailsPiece2(); ReportDetailsPiece3();
  }

  lemma SuggestionDetailsPiece0() ensures '{' !in "    \"details\": \"Provide numbered sug" {}
  lemma SuggestionDetailsPiece1() ensures '{' !in "gestions (1), (2), (3), etc. for imp" {}
  lemma SuggestionDetailsPiece2() ensures '{' !in "roving the smart contract in terms o" {}
  lemma SuggestionDetailsPiece3() ensures '{' !in "f security, performance, and any oth" {}
  lemma SuggestionDetailsPiece4() ensures '{' !in "er identified weaknesses. Each sugge" {}
  lemma SuggestionDetailsPiece5() ensures '{' !in "stion should be on a separate line o" {}
  lemma SuggestionDetailsPiece6() ensures '{' !in "r clearly numbered.\"\n" {}
  lemma SuggestionDetailsBraceFree()
    ensures '{' !in SUGGESTIONS_DETAILS
  {
    SuggestionDetailsPiece0(); SuggestionDetailsPiece1(); SuggestionDetailsPiece2(); SuggestionDetailsPiece3(); SuggestionDetailsPiece4(); SuggestionDetailsPiece5(); SuggestionDetailsPiece6();
  }

  lemma ClosingPiece0() ensures '{' !in "  }\n]\n\nThank you." {}
  lemma ClosingBraceFree()
    ensures '{' !in FORMAT_CLOSING
  {
    ClosingPiece0();
  }

  lemma MetricName0BraceFree() ensures '{' !in "Security Vulnerabilities" {}
  lemma MetricName1BraceFree() ensures '{' !in "Gas Optimization" {}
  lemma MetricName2BraceFree() ensures '{' !in "Code Quality" {}
  lemma MetricName3BraceFree() ensures '{' !in "Access Control" {}
  lemma MetricName4BraceFree() ensures '{' !in "Input Validation" {}
  lemma MetricName5BraceFree() ensures '{' !in "Business Logic" {}
  lemma MetricName6BraceFree() ensures '{' !in "Upgradability" {}
  lemma MetricName7BraceFree() ensures '{' !in "Documentation" {}
  lemma MetricDescription0BraceFree() ensures '{' !in "Reentrancy, overflow, access control issues" {}
  lemma MetricDescription1Piece0() ensures '{' !in "Efficient loops, storage usage, " {}
  lemma MetricDescription1Piece1() ensures '{' !in "function calls" {}
  lemma MetricDescription1BraceFree()
    ensures '{' !in TEMPLATE_METRIC_DESCRIPTIONS[1]
  {
    MetricDescription1Piece0(); MetricDescription1Piece1();
  }
  lemma MetricDescription2BraceFree() ensures '{' !in "Readability, modularity, best practices" {}
  lemma MetricDescription3BraceFree() ensures '{' !in "Proper permissions and role management" {}
  lemma MetricDescription4BraceFree() ensures '{' !in "Parameter checks and edge case handling" {}
  lemma MetricDescription5BraceFree() ensures '{' !in "Logic correctness and edge cases" {}
  lemma MetricDescription6BraceFree() ensures '{' !in "Proxy patterns and upgrade safety" {}
  lemma MetricDescription7BraceFree() ensures '{' !in "Comments, NatSpec, and code clarity" {}

  lemma MetricTextBraceFree()
    ensures forall k :: 0 <= k < |TEMPLATE_METRICS| ==> '{' !in TEMPLATE_METRICS[k]
    ensures forall k :: 0 <= k < |TEMPLATE_METRIC_DESCRIPTIONS| ==> '{' !in TEMPLATE_METRIC_DESCRIPTIONS[k]
  {
    MetricName0BraceFree(); MetricName1BraceFree(); MetricName2BraceFree(); MetricName3BraceFree(); MetricName4BraceFree(); MetricName5BraceFree(); MetricName6BraceFree(); MetricName7BraceFree();
    MetricDescription0BraceFree(); MetricDescription1BraceFree(); MetricDescription2BraceFree(); MetricDescription3BraceFree(); MetricDescription4BraceFree(); MetricDescription5BraceFree(); MetricDescription6BraceFree(); MetricDescription7BraceFree();
  }

  lemma SectionOpenLines() ensures BracesOpenLines(SECTION_OPEN) {}
  lemma SectionNameEndBraceFree() ensures '{' !in SECTION_NAME_END {}
  lemma MetricOpenLines() ensures BracesOpenLines(METRIC_OPEN) {}
  lemma MetricNameEndBraceFree() ensures '{' !in METRIC_NAME_END {}
  lemma MetricDescriptionKeyBraceFree() ensures '{' !in METRIC_DESCRIPTION_KEY {}
  lemma MetricCloseBraceFree() ensures '{' !in METRIC_CLOSE {}
  lemma DetailsOpenBraceFree() ensures '{' !in DETAILS_OPEN {}
  lemma DetailsCloseBraceFree() ensures '{' !in DETAILS_CLOSE {}

  lemma SectionHeaderLines(name: string)
    requires '{' !in name
    ensures BracesOpenLines(SectionHeader(name))
  {
    SectionOpenLines();
    SectionNameEndBraceFree();
    BraceFreeOpensLines(name);
    BraceFreeOpensLines(SECTION_NAME_END);
    BracesOpenLinesConcat(SECTION_OPEN, name);
    BracesOpenLinesConcat(SECTION_OPEN + name, SECTION_NAME_END);
  }

  lemma MetricEntryLines(name: string, description: string)
    requires '{' !in name && '{' !in description
    ensures BracesOpenLines(MetricEntry(name, description))
  {
    MetricOpenLines();
    MetricNameEndBraceFree();
    MetricDescriptionKeyBraceFree();
    MetricCloseBraceFree();
    BraceFreeOpensLines(name);
    BraceFreeOpensLines(METRIC_NAME_END + METRIC_DESCRIPTION_KEY + description + METRIC_CLOSE);
    BracesOpenLinesConcat(METRIC_OPEN, name);
    BracesOpenLinesConcat(METRIC_OPEN + name, METRIC_NAME_END + METRIC_DESCRIPTION_KEY + description + METRIC_CLOSE);
    assert MetricEntry(name, description)
        == (METRIC_OPEN + name) + (METRIC_NAME_END + METRIC_DESCRIPTION_KEY + description + METRIC_CLOSE);
  }

  lemma {:induction false} MetricEntriesLines(names: seq<string>, descriptions: seq<string>)
    requires |names| == |descriptions| >= 1
    requires forall k :: 0 <= k < |names| ==> '{' !in names[k] && '{' !in descriptions[k]
    ensures BracesOpenLines(MetricEntries(names, descriptions))
    decreases |names|
  {
    MetricEntryLines(names[0], descriptions[0]);
    if |names| == 1 {
      BraceFreeOpensLines("\n");
      BracesOpenLinesConcat(MetricEntry(names[0], descriptions[0]), "\n");
    } else {
      MetricEntriesLines(names[1..], descriptions[1..]);
      BraceFreeOpensLines(",\n");
      BracesOpenLinesConcat(MetricEntry(names[0], descriptions[0]), ",\n");
      BracesOpenLinesConcat(MetricEntry(names[0], descriptions[0]) + ",\n", MetricEntries(names[1..], descriptions[1..]));
    }
  }

  lemma AuditReportBraceFree() ensures '{' !in AUDIT_REPORT {}
  lemma MetricScoresBraceFree() ensures '{' !in METRIC_SCORES {}
  lemma SuggestionsForImprovementBraceFree() ensures '{' !in SUGGESTIONS_FOR_IMPROVEMENT {}

  lemma ReportSectionLines()
    ensures BracesOpenLines(REPORT_SECTION)
  {
    ReportDetailsBraceFree(); AuditReportBraceFree();
    SectionHeaderLines(AUDIT_REPORT);
    BraceFreeOpensLines(AUDIT_REPORT_DETAILS);
    BracesOpenLinesConcat(SectionHeader(AUDIT_REPORT), AUDIT_REPORT_DETAILS);
  }

  lemma MetricsSectionLines()
    ensures BracesOpenLines(METRICS_SECTION)
  {
    DetailsOpenBraceFree(); DetailsCloseBraceFree(); MetricScoresBraceFree();
    var p0 := SectionHeader(METRIC_SCORES);
    var p2 := MetricEntries(TEMPLATE_METRICS, TEMPLATE_METRIC_DESCRIPTIONS);
    SectionHeaderLines(METRIC_SCORES);
    BraceFreeOpensLines(DETAILS_OPEN);
    MetricBlockLines();
    BraceFreeOpensLines(DETAILS_CLOSE);
    BracesOpenLinesConcat(p0, DETAILS_OPEN);
    BracesOpenLinesConcat(p0 + DETAILS_OPEN, p2);
    BracesOpenLinesConcat(p0 + DETAILS_OPEN + p2, DETAILS_CLOSE);
  }

  lemma SuggestionsSectionLines()
    ensures BracesOpenLines(SUGGESTIONS_SECTION)
  {
    SuggestionDetailsBraceFree(); SuggestionsForImprovementBraceFree();
    SectionHeaderLines(SUGGESTIONS_FOR_IMPROVEMENT);
    BraceFreeOpensLines(SUGGESTIONS_DETAILS);
    BracesOpenLinesConcat(SectionHeader(SUGGESTIONS_FOR_IMPROVEMENT), SUGGESTIONS_DETAILS);
  }

  lemma MetricBlockLines()
    ensures BracesOpenLines(MetricEntries(TEMPLATE_METRICS, TEMPLATE_METRIC_DESCRIPTIONS))
  {
    MetricTextBraceFree();
    MetricEntriesLines(TEMPLATE_METRICS, TEMPLATE_METRIC_DESCRIPTIONS);
  }

  /** Every brace after the placeholder opens a line. */
  lemma TailLines()
    ensures BracesOpenLines(PROMPT_TAIL)
  {
    IntroBraceFree(); ClosingBraceFree();
    BraceFreeOpensLines(FORMAT_INTRO);
    ReportSectionLines();
    MetricsSectionLines();
    SuggestionsSectionLines();
    BraceFreeOpensLines(FORMAT_CLOSING);
    BracesOpenLinesConcat(FORMAT_INTRO, REPORT_SECTION);
    BracesOpenLinesConcat(FORMAT_INTRO + REPORT_SECTION, METRICS_SECTION);
    BracesOpenLinesConcat(FORMAT_INTRO + REPORT_SECTION + METRICS_SECTION, SUGGESTIONS_SECTION);
    BracesOpenLinesConcat(FORMAT_INTRO + REPORT_SECTION + METRICS_SECTION + SUGGESTIONS_SECTION, FORMAT_CLOSING);
  }

  lemma HeadLength()
    ensures |PROMPT_HEAD| == 147
  {
  }

  lemma PlaceholderLength()
    ensures |PLACEHOLDER| == 10 && PLACEHOLDER[0] == '{' && '{' !in PLACEHOLDER[1..]
  {
  }

  /** Headers that open the three sections of a text occur in order, where those sections start. */
  lemma {:induction false} SectionsAt(head: string, ph: string, fi: string, rs: string, ms: string, ss: string,
                                      fc: string, h1: string, h2: string, h3: string)
    requires h1 != [] && h2 != [] && h1 <= rs && h2 <= ms && h3 <= ss
    ensures exists i: nat, j: nat, k: nat ::
              && i < j < k
              && Text.OccursAt(h1, head + ph + (fi + rs + ms + ss + fc), i)
              && Text.OccursAt(h2, head + ph + (fi + rs + ms + ss + fc), j)
              && Text.OccursAt(h3, head + ph + (fi + rs + ms + ss + fc), k)
  {
    var t := head + ph + (fi + rs + ms + ss + fc);
    var i := |head| + |ph| + |fi|;
    assert t[i..i + |h1|] == rs[..|h1|];
    assert t[i + |rs|..i + |rs| + |h2|] == ms[..|h2|];
    assert t[i + |rs| + |ms|..i + |rs| + |ms| + |h3|] == ss[..|h3|];
    assert Text.OccursAt(h1, t, i) && Text.OccursAt(h2, t, i + |rs|) && Text.OccursAt(h3, t, i + |rs| + |ms|);
  }

  /** The "Metric Scores" section object starts with its header. */
  lemma MetricsSectionHeader()
    ensures SectionHeader(METRIC_SCORES) <= METRICS_SECTION
  {
    var h := SectionHeader(METRIC_SCORES);
    assert METRICS_SECTION == h + DETAILS_OPEN + MetricEntries(TEMPLATE_METRICS, TEMPLATE_METRIC_DESCRIPTIONS) + DETAILS_CLOSE;
  }

  /**
   * The array format the template asks for names three sections, in this
   * order: "Audit Report", "Metric Scores", "Suggestions for Improvement".
   */
  lemma TemplateSections()
    ensures exists i: nat, j: nat, k: nat ::
              && i < j < k
              && Text.OccursAt(SectionHeader(AUDIT_REPORT), AUDIT_PROMPT_TEMPLATE, i)
              && Text.OccursAt(SectionHeader(METRIC_SCORES), AUDIT_PROMPT_TEMPLATE, j)
              && Text.OccursAt(SectionHeader(SUGGESTIONS_FOR_IMPROVEMENT), AUDIT_PROMPT_TEMPLATE, k)
  {
    MetricsSectionHeader();
    SectionsAt(PROMPT_HEAD, PLACEHOLDER, FORMAT_INTRO, REPORT_SECTION, METRICS_SECTION, SUGGESTIONS_SECTION, FORMAT_CLOSING,
               SectionHeader(AUDIT_REPORT), SectionHeader(METRIC_SCORES), SectionHeader(SUGGESTIONS_FOR_IMPROVEMENT));
  }
}
