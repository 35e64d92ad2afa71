/**
 * `LiveDemoSection`: runs an audit of the contract being edited against the
 * analysis endpoint, keeps the result (also in browser storage, for the
 * dashboard) and renders it: metric cards with a colour band per score, the
 * suggestions split into numbered items by the first list format that
 * matches more than once, and every other section as text.
 *
 * `JSON.stringify` is the `encode` parameter (`stringify` for the indented
 * form used when rendering), `String(value)` of a non-string value is `show`.
 */
module LiveDemoSection {
  import opened Wrappers
  import Js
  import Text
  import MatchScan
  import AuditSections
  import Constants
  import ApiErrors
  import HttpUtils
  import DashboardPage
  import opened Exceptions

  // ---------------------------------------------------------------- suggestions

  /** One numbered suggestion: the number on its badge and its text. */
  datatype Suggestion = Suggestion(badge: nat, text: string)

  /** What `formatSuggestions` renders. */
  datatype Rendered =
    | NoSuggestions                      // the "No suggestions available" placeholder
    | Items(items: seq<Suggestion>)      // numbered cards
    | Block(text: string)                // the whole text as one paragraph

  /**
   * The cards of a numbered branch from match `from` on: each card is a
   * later match, numbered one past its index, with text left after
   * stripping; every such match has its card; the badges increase.
   */
  ghost predicate Numbered(clean: seq<string>, from: nat, r: seq<Suggestion>) {
    && (forall it :: it in r ==> from < it.badge <= |clean| && it.text == clean[it.badge - 1] && it.text != "")
    && (forall k :: from <= k < |clean| && clean[k] != "" ==> Suggestion(k + 1, clean[k]) in r)
    && (forall a, b :: 0 <= a < b < |r| ==> r[a].badge < r[b].badge)
  }

  /**
   * The cards of a numbered branch from the stripped matches: match `k`
   * gets badge `k + 1`, and is dropped when nothing is left of it.
   */
  function NumberedItems(clean: seq<string>, from: nat): (r: seq<Suggestion>)
    requires from <= |clean|
    ensures Numbered(clean, from, r)
    decreases |clean| - from
  {
    if from == |clean| then []
    else
      var rest := NumberedItems(clean, from + 1);
      if clean[from] == "" then
        NumberedSkip(clean, from, rest);
        rest
      else
        NumberedCons(clean, from, rest);
        [Suggestion(from + 1, clean[from])] + rest
  }

  /** A match with nothing left adds no card. */
  lemma NumberedSkip(clean: seq<string>, from: nat, rest: seq<Suggestion>)
    requires from < |clean| && clean[from] == "" && Numbered(clean, from + 1, rest)
    ensures Numbered(clean, from, rest)
  {
  }

  /** A match with text left adds its card in front of the later ones. */
  lemma NumberedCons(clean: seq<string>, from: nat, rest: seq<Suggestion>)
    requires from < |clean| && clean[from] != "" && Numbered(clean, from + 1, rest)
    ensures Numbered(clean, from, [Suggestion(from + 1, clean[from])] + rest)
  {
    var r := [Suggestion(from + 1, clean[from])] + rest;
    assert forall k :: 1 <= k < |r| ==> r[k] == rest[k - 1] && r[k] in rest;
    assert forall it :: it in r ==> it == r[0] || it in rest;
  }

  /** The cards of the matches of one list format. */
  function ListItems(matches: seq<string>, p: MatchScan.Pattern): seq<Suggestion> {
    NumberedItems(MatchScan.Stripped(matches, p), 0)
  }

  /** `s.trim() && s.length > 10`: a piece long enough to be shown as a sentence. */
  predicate KeepSentence(s: string) {
    Text.Trim(s) != "" && |s| > 10
  }

  /** `pieces.filter(keep)`, in order. */
  function KeptSentences(pieces: seq<string>): (r: seq<string>)
    ensures forall x :: x in r ==> x in pieces && KeepSentence(x)
    ensures forall x :: x in pieces && KeepSentence(x) ==> x in r
  {
    if pieces == [] then []
    else
      var rest := KeptSentences(pieces[1..]);
      assert forall x :: x in pieces ==> x == pieces[0] || x in pieces[1..];
      if KeepSentence(pieces[0]) then [pieces[0]] + rest else rest
  }

  /** One piece is kept exactly when it is long enough. */
  lemma KeptSentencesSingle(x: string)
    ensures KeptSentences([x]) == if KeepSentence(x) then [x] else []
  {
    assert [x][1..] == [];
  }

  /**
   * The kept pieces of two texts in turn are the kept pieces of each, in
   * turn: with `KeptSentencesSingle` this pins the filter down, so it keeps
   * the order of the pieces and each one as often as it occurs.
   */
  lemma {:induction false} KeptSentencesAppend(a: seq<string>, b: seq<string>)
    ensures KeptSentences(a + b) == KeptSentences(a) + KeptSentences(b)
    decreases |a|
  {
    if a == [] {
      assert a + b == b;
    } else {
      assert (a + b)[0] == a[0];
      assert (a + b)[1..] == a[1..] + b;
      KeptSentencesAppend(a[1..], b);
    }
  }

  /** The sentence cards: the kept pieces, numbered in order, trimmed and ended with a period. */
  function SentenceItems(kept: seq<string>): (r: seq<Suggestion>)
    ensures |r| == |kept|
    ensures forall i :: 0 <= i < |r| ==> r[i] == Suggestion(i + 1, Text.Trim(kept[i]) + ".")
  {
    seq(|kept|, i requires 0 <= i < |kept| => Suggestion(i + 1, Text.Trim(kept[i]) + "."))
  }

  /** The text `formatSuggestions` works on: the string itself or its indented JSON, trimmed. */
  function SuggestionText(content: Js.Value, stringify: Js.Value -> string): string {
    Text.Trim(if content.Str? then content.s else stringify(content))
  }

  /**
   * `formatSuggestions(content)`: the placeholder for falsy content;
   * otherwise the first of "(n)", "$$n$$" and "n." that matches more than
   * once; otherwise the sentences when more than one is kept; otherwise the
   * text as one block.
   */
  function FormatSuggestions(content: Js.Value, stringify: Js.Value -> string): (r: Rendered)
    ensures r == NoSuggestions <==> !Js.Truthy(content)
    ensures Js.Truthy(content) ==>
              var text := SuggestionText(content, stringify);
              var parens := MatchScan.Matches(text, MatchScan.ParenItems);
              var dollars := MatchScan.Matches(text, MatchScan.DollarItems);
              var numbered := MatchScan.Matches(text, MatchScan.NumberedItems);
              var kept := KeptSentences(Text.SplitSentences(text));
              if |parens| > 1 then r == Items(ListItems(parens, MatchScan.ParenItems))
              else if |dollars| > 1 then r == Items(ListItems(dollars, MatchScan.DollarItems))
              else if |numbered| > 1 then r == Items(ListItems(numbered, MatchScan.NumberedItems))
              else if |kept| > 1 then r == Items(SentenceItems(kept))
              else r == Block(text)
  {
    if !Js.Truthy(content) then NoSuggestions
    else
      var text := SuggestionText(content, stringify);
      var parens := MatchScan.Matches(text, MatchScan.ParenItems);
      if |parens| > 1 then Items(ListItems(parens, MatchScan.ParenItems))
      else
        var dollars := MatchScan.Matches(text, MatchScan.DollarItems);
        if |dollars| > 1 then Items(ListItems(dollars, MatchScan.DollarItems))
        else
          var numbered := MatchScan.Matches(text, MatchScan.NumberedItems);
          if |numbered| > 1 then Items(ListItems(numbered, MatchScan.NumberedItems))
          else
            var kept := KeptSentences(Text.SplitSentences(text));
            if |kept| > 1 then Items(SentenceItems(kept)) else Block(text)
  }

  /** Every card shows a non-empty text, and the badges increase. */
  lemma ItemsAreNonEmpty(content: Js.Value, stringify: Js.Value -> string)
    requires FormatSuggestions(content, stringify).Items?
    ensures var items := FormatSuggestions(content, stringify).items;
            && (forall it :: it in items ==> it.text != "" && it.badge >= 1)
            && (forall a, b :: 0 <= a < b < |items| ==> items[a].badge < items[b].badge)
  {
    var text := SuggestionText(content, stringify);
    var parens := MatchScan.Matches(text, MatchScan.ParenItems);
    var dollars := MatchScan.Matches(text, MatchScan.DollarItems);
    var numbered := MatchScan.Matches(text, MatchScan.NumberedItems);
    if |parens| <= 1 && |dollars| <= 1 && |numbered| <= 1 {
      var items := SentenceItems(KeptSentences(Text.SplitSentences(text)));
      forall it | it in items
        ensures it.text != ""
      {
        var i :| 0 <= i < |items| && items[i] == it;
        assert it.text[|it.text| - 1] == '.';
      }
    }
  }

  // ---------------------------------------------------------------- metric cards

  /** The colour of a score bar. */
  datatype Band = EmeraldBand | YellowBand | RedBand

  /**
   * `metric.score || 0` as the number the comparisons see: falsy scores are
   * 0, `true` is 1, and any other value is treated as NaN (`None`), which
   * fails both comparisons.
   */
  function ScoreOrZero(score: Js.Value): (r: Option<real>)
    ensures !Js.Truthy(score) ==> r == Some(0.0)
    ensures score.Num? ==> r == Some(score.n)
  {
    if !Js.Truthy(score) then Some(0.0)
    else if score.Num? then Some(score.n)
    else if score.Bool? then Some(1.0)
    else None
  }

  /** `>= 8` emerald, `>= 6` yellow, otherwise red. */
  function BandFor(score: Js.Value): (b: Band)
    ensures score.Num? ==> (b == EmeraldBand <==> score.n >= 8.0)
    ensures score.Num? ==> (b == YellowBand <==> 6.0 <= score.n < 8.0)
    ensures score.Num? ==> (b == RedBand <==> score.n < 6.0)
    ensures !Js.Truthy(score) ==> b == RedBand
  {
    match ScoreOrZero(score)
    case Some(x) => if x >= 8.0 then EmeraldBand else if x >= 6.0 then YellowBand else RedBand
    case None => RedBand
  }

  /** Red below yellow below emerald. */
  function BandRank(b: Band): nat {
    match b
    case RedBand => 0
    case YellowBand => 1
    case EmeraldBand => 2
  }

  /** A higher score never gets a lower band. */
  lemma BandMonotone(x: real, y: real)
    requires x <= y
    ensures BandRank(BandFor(Js.Num(x))) <= BandRank(BandFor(Js.Num(y)))
  {
  }

  /**
   * One metric card: its title, its description when there is one, the
   * value written before "/10", the width of its bar in percent (`None`
   * where the width is NaN) and the bar's colour.
   */
  datatype MetricView = MetricView(title: Js.Value, description: Option<Js.Value>, shownScore: Js.Value,
                                   width: Option<real>, band: Band)

  const UNKNOWN_METRIC := "Unknown Metric"

  /** A metric's card; reading `metric` of a nullish entry throws. */
  function MetricCard(metric: Js.Value): (r: Result<MetricView, Thrown>)
    ensures Js.Nullish(metric) <==> r.Failure?
    ensures r.Failure? ==> r.error == PropertyOfNullish(metric.Null?, "metric")
    ensures r.Success? ==>
              && r.value.title == (if Js.Truthy(Js.Get(metric, "metric")) then Js.Get(metric, "metric")
                                   else Js.Str(UNKNOWN_METRIC))
              && r.value.description == (if Js.Truthy(Js.Get(metric, "description")) then Some(Js.Get(metric, "description"))
                                         else None)
              && r.value.shownScore == (if Js.Truthy(Js.Get(metric, "score")) then Js.Get(metric, "score") else Js.Num(0.0))
              && (Js.Get(metric, "score").Num? ==> r.value.width == Some(Js.Get(metric, "score").n * 10.0))
              && (!Js.Truthy(Js.Get(metric, "score")) ==> r.value.width == Some(0.0))
              && r.value.band == BandFor(Js.Get(metric, "score"))
  {
    if Js.Nullish(metric) then Failure(PropertyOfNullish(metric.Null?, "metric"))
    else
      var name := Js.Get(metric, "metric");
      var description := Js.Get(metric, "description");
      var score := Js.Get(metric, "score");
      Success(MetricView(
        if Js.Truthy(name) then name else Js.Str(UNKNOWN_METRIC),
        if Js.Truthy(description) then Some(description) else None,
        if Js.Truthy(score) then score else Js.Num(0.0),
        match ScoreOrZero(score) case Some(x) => Some(x / 10.0 * 100.0) case None => None,
        BandFor(score)))
  }

  /** The cards of all metrics, in order, or the error of the first entry that throws. */
  function MetricCards(metrics: seq<Js.Value>): (r: Result<seq<MetricView>, Thrown>)
    ensures r.Success? ==>
              |r.value| == |metrics| && forall i :: 0 <= i < |metrics| ==> MetricCard(metrics[i]) == Success(r.value[i])
    ensures r.Failure? ==>
              exists k :: 0 <= k < |metrics| && MetricCard(metrics[k]) == Failure(r.error)
                && forall i :: 0 <= i < k ==> MetricCard(metrics[i]).Success?
    ensures (forall i :: 0 <= i < |metrics| ==> !Js.Nullish(metrics[i])) ==> r.Success?
  {
    if metrics == [] then Success([])
    else
      match MetricCard(metrics[0])
      case Failure(e) => Failure(e)
      case Success(card) =>
        match MetricCards(metrics[1..])
        case Failure(e) =>
          CardsFailureShift(metrics, e);
          Failure(e)
        case Success(rest) =>
          CardsSuccessShift(metrics, card, rest);
          Success([card] + rest)
  }

  /** A failure among the later metrics, after a first card that renders, is the first failure of all of them. */
  lemma CardsFailureShift(metrics: seq<Js.Value>, e: Thrown)
    requires |metrics| > 0 && MetricCard(metrics[0]).Success?
    requires exists k :: 0 <= k < |metrics| - 1 && MetricCard(metrics[1..][k]) == Failure(e)
               && forall i :: 0 <= i < k ==> MetricCard(metrics[1..][i]).Success?
    ensures exists k :: 0 <= k < |metrics| && MetricCard(metrics[k]) == Failure(e)
              && forall i :: 0 <= i < k ==> MetricCard(metrics[i]).Success?
  {
    var k :| 0 <= k < |metrics| - 1 && MetricCard(metrics[1..][k]) == Failure(e)
               && forall i :: 0 <= i < k ==> MetricCard(metrics[1..][i]).Success?;
    assert metrics[k + 1] == metrics[1..][k];
    forall i | 0 <= i < k + 1
      ensures MetricCard(metrics[i]).Success?
    {
      if i > 0 {
        assert metrics[i] == metrics[1..][i - 1];
      }
    }
  }

  /** The first card followed by the cards of the later metrics are the cards of all of them. */
  lemma CardsSuccessShift(metrics: seq<Js.Value>, card: MetricView, rest: seq<MetricView>)
    requires |metrics| > 0 && MetricCard(metrics[0]) == Success(card)
    requires |rest| == |metrics| - 1 && forall i :: 0 <= i < |rest| ==> MetricCard(metrics[1..][i]) == Success(rest[i])
    ensures forall i :: 0 <= i < |metrics| ==> MetricCard(metrics[i]) == Success(([card] + rest)[i])
  {
    forall i | 0 <= i < |metrics|
      ensures MetricCard(metrics[i]) == Success(([card] + rest)[i])
    {
      if i > 0 {
        assert metrics[i] == metrics[1..][i - 1];
        assert ([card] + rest)[i] == rest[i - 1];
      }
    }
  }

  // ---------------------------------------------------------------- sections

  /** How one section is rendered. */
  datatype SectionView =
    | MetricsView(title: Js.Value, cards: seq<MetricView>)
    | SuggestionsView(title: Js.Value, body: Rendered)
    | DetailsView(title: Js.Value, text: string)

  /**
   * One section: "Metric Scores" shows cards when its details are an array,
   * "Suggestions for Improvement" is formatted, any other section shows its
   * details as text. Reading `section` of a nullish entry throws.
   */
  function SectionViewOf(section: Js.Value, stringify: Js.Value -> string): (r: Result<SectionView, Thrown>)
    ensures Js.Nullish(section) ==> r == Failure(PropertyOfNullish(section.Null?, "section"))
    ensures AuditSections.Named(section, AuditSections.SUGGESTIONS) ==>
              r == Success(SuggestionsView(Js.Get(section, "section"),
                                           FormatSuggestions(Js.Get(section, "details"), stringify)))
    ensures r.Success? && r.value.MetricsView? ==> AuditSections.Named(section, AuditSections.METRIC_SCORES)
    ensures AuditSections.Named(section, AuditSections.METRIC_SCORES) ==>
              var details := Js.Get(section, "details");
              if !details.Arr? then r == Success(MetricsView(Js.Str(AuditSections.METRIC_SCORES), []))
              else match MetricCards(details.items)
                   case Failure(e) => r == Failure(e)
                   case Success(cards) => r == Success(MetricsView(Js.Str(AuditSections.METRIC_SCORES), cards))
    ensures !Js.Nullish(section) && !AuditSections.Named(section, AuditSections.METRIC_SCORES)
              && !AuditSections.Named(section, AuditSections.SUGGESTIONS) ==>
              var details := Js.Get(section, "details");
              r == Success(DetailsView(Js.Get(section, "section"), if details.Str? then details.s else stringify(details)))
  {
    if Js.Nullish(section) then Failure(PropertyOfNullish(section.Null?, "section"))
    else
      var title := Js.Get(section, "section");
      var details := Js.Get(section, "details");
      if title == Js.Str(AuditSections.METRIC_SCORES) then
        if details.Arr? then
          match MetricCards(details.items)
          case Failure(e) => Failure(e)
          case Success(cards) => Success(MetricsView(title, cards))
        else Success(MetricsView(title, []))
      else if title == Js.Str(AuditSections.SUGGESTIONS) then
        Success(SuggestionsView(title, FormatSuggestions(details, stringify)))
      else
        Success(DetailsView(title, if details.Str? then details.s else stringify(details)))
  }

  /** A "Metric Scores" section whose details are an array without nullish entries shows one card per entry, in order. */
  lemma MetricsSectionShowsCards(metrics: seq<Js.Value>, stringify: Js.Value -> string)
    requires forall i :: 0 <= i < |metrics| ==> !Js.Nullish(metrics[i])
    ensures var r := SectionViewOf(AuditSections.Section(AuditSections.METRIC_SCORES, Js.Arr(metrics)), stringify);
            && r.Success? && r.value.MetricsView?
            && r.value.title == Js.Str(AuditSections.METRIC_SCORES)
            && |r.value.cards| == |metrics|
            && forall i :: 0 <= i < |metrics| ==> MetricCard(metrics[i]) == Success(r.value.cards[i])
  {
    AuditSections.SectionDetails(AuditSections.METRIC_SCORES, Js.Arr(metrics));
  }

  /** All sections, in order, or the error of the first one that throws. */
  function SectionViews(sections: seq<Js.Value>, stringify: Js.Value -> string): (r: Result<seq<SectionView>, Thrown>)
    ensures r.Success? ==>
              |r.value| == |sections|
              && forall i :: 0 <= i < |sections| ==> SectionViewOf(sections[i], stringify) == Success(r.value[i])
    ensures r.Failure? ==>
              exists k :: 0 <= k < |sections| && SectionViewOf(sections[k], stringify) == Failure(r.error)
  {
    if sections == [] then Success([])
    else
      match SectionViewOf(sections[0], stringify)
      case Failure(e) => Failure(e)
      case Success(view) =>
        match SectionViews(sections[1..], stringify)
        case Failure(e) =>
          assert forall i :: 1 <= i < |sections| ==> sections[i] == sections[1..][i - 1];
          Failure(e)
        case Success(rest) =>
          assert forall i :: 1 <= i < |sections| ==> sections[i] == sections[1..][i - 1];
          Success([view] + rest)
  }

  /** `renderAuditResults()`: nothing without results; otherwise the views of the normalised sections. */
  function RenderAuditResults(auditResults: Js.Value, stringify: Js.Value -> string): (r: Result<Option<seq<SectionView>>, Thrown>)
    ensures !Js.Truthy(auditResults) <==> r == Success(None)
    ensures Js.Truthy(auditResults) ==>
              match SectionViews(AuditSections.Normalize(auditResults), stringify)
              case Success(views) => r == Success(Some(views))
              case Failure(e) => r == Failure(e)
  {
    if !Js.Truthy(auditResults) then Success(None)
    else
      match SectionViews(AuditSections.Normalize(auditResults), stringify)
      case Success(views) => Success(Some(views))
      case Failure(e) => Failure(e)
  }

  // ---------------------------------------------------------------- running an audit

  /** What the `fetch` of `/api/analyze` settles to, and what `response.json()` gives. */
  datatype Reply =
    | NetworkFailure(message: string)                     // `fetch` rejects
    | Response(ok: bool, body: Result<Js.Value, string>)  // `response.json()` resolves, or rejects with that message

  /** The request body `JSON.stringify({ contract })` is made from. */
  function RequestBody(contract: string): Js.Value {
    Js.Obj([("contract", Js.Str(contract))])
  }

  const ANALYSIS_FAILED := "Analysis failed"

  /** The message of `new Error(value)`: `String(value)`. */
  function ErrorMessageOf(value: Js.Value, show: Js.Value -> string): string {
    if value.Str? then value.s else show(value)
  }

  /**
   * How the `try` block ends: with the data on an ok reply, or with the
   * message the `catch` block stores: that of a rejected request or body, of
   * the `TypeError` from reading `error` of a null body, or of the `Error`
   * built from `data.error || "Analysis failed"`.
   */
  function RunOutcome(reply: Reply, show: Js.Value -> string): (r: Result<Js.Value, string>)
    ensures r.Success? <==> reply.Response? && reply.ok && reply.body.Success?
    ensures r.Success? ==> r.value == reply.body.value
    ensures reply.NetworkFailure? ==> r == Failure(reply.message)
    ensures reply.Response? && reply.body.Failure? ==> r == Failure(reply.body.error)
    ensures reply.Response? && !reply.ok && reply.body.Success? && Js.Nullish(reply.body.value) ==>
              r == Failure("Cannot read properties of " + (if reply.body.value.Null? then "null" else "undefined")
                           + " (reading 'error')")
    ensures reply.Response? && !reply.ok && reply.body.Success? && !Js.Nullish(reply.body.value) ==>
              r == Failure(if Js.Truthy(Js.Get(reply.body.value, "error"))
                           then ErrorMessageOf(Js.Get(reply.body.value, "error"), show)
                           else ANALYSIS_FAILED)
  {
    match reply
    case NetworkFailure(message) => Failure(message)
    case Response(ok, body) =>
      match body
      case Failure(message) => Failure(message)
      case Success(data) =>
        if ok then Success(data)
        else if Js.Nullish(data) then
          var t := PropertyOfNullish(data.Null?, "error");
          assert t.message == "Cannot read properties of " + (if data.Null? then "null" else "undefined") + " (reading '" + "error" + "')";
          assert t.message == "Cannot read properties of " + (if data.Null? then "null" else "undefined") + " (reading 'error')";
          Failure(Message(t).value)
        else
          var e := Js.Get(data, "error");
          Failure(if Js.Truthy(e) then ErrorMessageOf(e, show) else ANALYSIS_FAILED)
  }

  /** `response.ok`: a status in 200-299. */
  predicate Ok(status: int) {
    200 <= status <= 299
  }

  /** An error response of the endpoint shows the error's own message. */
  lemma ErrorResponseShown(e: ApiErrors.ApiError, show: Js.Value -> string)
    requires ApiErrors.WellFormed(e) && !Ok(e.statusCode)
    ensures RunOutcome(Response(false, Success(HttpUtils.CreateErrorResponse(e).body)), show) == Failure(e.message)
  {
  }

  /** A success response of the endpoint delivers the analysis unchanged. */
  lemma SuccessResponseDelivered(data: Js.Value, show: Js.Value -> string)
    ensures RunOutcome(Response(Ok(HttpUtils.CreateSuccessResponse(data).status), Success(HttpUtils.CreateSuccessResponse(data).body)), show)
         == Success(data)
  {
  }

  /** An error body without a message falls back to "Analysis failed". */
  lemma MissingErrorFallsBack(show: Js.Value -> string)
    ensures RunOutcome(Response(false, Success(Js.Obj([]))), show) == Failure(ANALYSIS_FAILED)
  {
  }

  /** The component state and the browser storage it writes. */
  class LiveDemo {
    var isAnalyzing: bool
    var showResults: bool
    var auditResults: Js.Value
    var error: Option<string>
    var contract: string
    var storage: map<string, string>

    /** First render: idle, no results, no error, `initial` in the editor. */
    constructor(storage: map<string, string>, initial: string)
      ensures !isAnalyzing && !showResults && auditResults == Js.Null && error == None
      ensures contract == initial && this.storage == storage
    {
      isAnalyzing := false;
      showResults := false;
      auditResults := Js.Null;
      error := None;
      contract := initial;
      this.storage := storage;
    }

    /** The editor's `onChange`. */
    method SetContract(code: string)
      modifies this
      ensures contract == code
      ensures isAnalyzing == old(isAnalyzing) && showResults == old(showResults)
      ensures auditResults == old(auditResults) && error == old(error) && storage == old(storage)
    {
      contract := code;
    }

    /** The start of `handleRunAudit`: analyzing, results hidden, error cleared. */
    method BeginRun()
      modifies this
      ensures isAnalyzing && !showResults && error == None
      ensures auditResults == old(auditResults) && contract == old(contract) && storage == old(storage)
    {
      isAnalyzing := true;
      showResults := false;
      error := None;
    }

    /**
     * The rest of `handleRunAudit` once the reply is in: on success the data
     * is shown and both storage keys are written; otherwise the message is
     * stored and results and storage are left as they were. Analyzing ends
     * on every path.
     */
    method CompleteRun(reply: Reply, encode: Js.Value -> string, show: Js.Value -> string)
      modifies this
      ensures !isAnalyzing && contract == old(contract)
      ensures RunOutcome(reply, show).Success? ==>
                && auditResults == RunOutcome(reply, show).value && showResults && error == old(error)
                && storage == old(storage)[DashboardPage.RESULTS_KEY := encode(auditResults)]
                                         [DashboardPage.CONTRACT_KEY := contract]
      ensures RunOutcome(reply, show).Failure? ==>
                && error == Some(RunOutcome(reply, show).error)
                && auditResults == old(auditResults) && showResults == old(showResults) && storage == old(storage)
    {
      isAnalyzing := false;
      match RunOutcome(reply, show)
      case Success(data) =>
        auditResults := data;
        showResults := true;
        storage := storage[DashboardPage.RESULTS_KEY := encode(data)];
        storage := storage[DashboardPage.CONTRACT_KEY := contract];
      case Failure(message) =>
        error := Some(message);
    }

    /** `handleRunAudit`, with the endpoint as the `server` function from request body to reply. */
    method HandleRunAudit(server: Js.Value -> Reply, encode: Js.Value -> string, show: Js.Value -> string)
      modifies this
      ensures !isAnalyzing && contract == old(contract)
      ensures var outcome := RunOutcome(server(RequestBody(old(contract))), show);
              && (outcome.Success? ==>
                    && auditResults == outcome.value && showResults && error == None
                    && storage == old(storage)[DashboardPage.RESULTS_KEY := encode(auditResults)]
                                             [DashboardPage.CONTRACT_KEY := contract])
              && (outcome.Failure? ==>
                    && error == Some(outcome.error)
                    && auditResults == old(auditResults) && !showResults && storage == old(storage))
    {
      BeginRun();
      CompleteRun(server(RequestBody(contract)), encode, show);
    }
  }

  /** The component as first rendered: the demo contract in the editor. */
  method Mount(storage: map<string, string>) returns (demo: LiveDemo)
    ensures fresh(demo)
    ensures !demo.isAnalyzing && !demo.showResults && demo.auditResults == Js.Null && demo.error == None
    ensures demo.contract == Constants.DEMO_CONTRACT && demo.storage == storage
  {
    demo := new LiveDemo(storage, Constants.DEMO_CONTRACT);
  }

  /**
   * The dashboard opened after a successful run finds that run's data and
   * contract, when decoding gives back what encoding wrote.
   */
  method RunThenOpenDashboard(demo: LiveDemo, reply: Reply, encode: Js.Value -> string,
                              decode: string -> Option<Js.Value>, show: Js.Value -> string)
    returns (dashboard: DashboardPage.Dashboard)
    requires RunOutcome(reply, show).Success?
    requires var data := RunOutcome(reply, show).value; encode(data) != "" && decode(encode(data)) == Some(data)
    requires demo.contract != ""
    modifies demo
    ensures dashboard.auditData == RunOutcome(reply, show).value
    ensures dashboard.contractCode == demo.contract
    ensures !dashboard.isLoading
  {
    demo.CompleteRun(reply, encode, show);
    dashboard := new DashboardPage.Dashboard(demo.storage);
    dashboard.Load(decode);
  }
}
