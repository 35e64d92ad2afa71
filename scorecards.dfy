/**
 * `Scorecards`: the metric cards of the dashboard. Up to eight metrics are
 * shown in input order, with the three default metrics when none are given;
 * each card takes its icon and colour from a fixed table keyed by the
 * metric name, falling back to a shield and "emerald".
 */
module Scorecards {
  import opened Wrappers
  import Js
  import AuditPrompt
  import opened Exceptions

  /** `MetricScore`. */
  datatype MetricScore = MetricScore(metric: string, score: real, description: Option<string>)

  datatype Icon =
    | Shield | Zap | Code | Lock | CheckSquare | Brain | ArrowUp | FileText
      /** The `Object.prototype` member of that name, which a lookup in an object literal also finds. */
    | Inherited(member: string)

  /** `iconMap`, with the entries for the names of older reports. */
  const ICON_MAP: map<string, Icon> := map[
    "Security Vulnerabilities" := Shield,
    "Gas Optimization" := Zap,
    "Code Quality" := Code,
    "Access Control" := Lock,
    "Input Validation" := CheckSquare,
    "Business Logic" := Brain,
    "Upgradability" := ArrowUp,
    "Documentation" := FileText,
    "Security" := Shield,
    "Performance" := Zap,
    "Other Key Areas" := Brain,
    "Gas Efficiency" := Zap
  ]

  /** `colorMap`, with the entries for the names of older reports. */
  const COLOR_MAP: map<string, string> := map[
    "Security Vulnerabilities" := "red",
    "Gas Optimization" := "yellow",
    "Code Quality" := "blue",
    "Access Control" := "purple",
    "Input Validation" := "green",
    "Business Logic" := "indigo",
    "Upgradability" := "pink",
    "Documentation" := "cyan",
    "Security" := "emerald",
    "Performance" := "blue",
    "Other Key Areas" := "purple",
    "Gas Efficiency" := "yellow"
  ]

  /**
   * The properties every object literal inherits from `Object.prototype`:
   * `iconMap[name]` and `colorMap[name]` find these too, and each is truthy.
   */
  const OBJECT_PROTOTYPE_MEMBERS: set<string> := {
    "constructor", "hasOwnProperty", "isPrototypeOf", "propertyIsEnumerable",
    "toLocaleString", "toString", "valueOf", "__proto__",
    "__defineGetter__", "__defineSetter__", "__lookupGetter__", "__lookupSetter__"
  }

  /**
   * The text an inherited member becomes in the class name: the source text
   * V8 gives a built-in function (`constructor` is the function `Object`), and
   * "[object Object]" for `__proto__`, which reads as `Object.prototype`.
   */
  function InheritedText(name: string): string {
    if name == "__proto__" then "[object Object]"
    else "function " + (if name == "constructor" then "Object" else name) + "() { [native code] }"
  }

  /** `iconMap[name] || Shield`. */
  function IconFor(name: string): (icon: Icon)
    ensures name in ICON_MAP ==> icon == ICON_MAP[name]
    ensures name !in ICON_MAP && name in OBJECT_PROTOTYPE_MEMBERS ==> icon == Inherited(name)
    ensures name !in ICON_MAP && name !in OBJECT_PROTOTYPE_MEMBERS ==> icon == Shield
  {
    if name in ICON_MAP then ICON_MAP[name]
    else if name in OBJECT_PROTOTYPE_MEMBERS then Inherited(name)
    else Shield
  }

  /** `colorMap[name] || "emerald"`: every colour in the table is a non-empty string. */
  function ColorFor(name: string): (color: string)
    ensures name in COLOR_MAP ==> color == COLOR_MAP[name]
    ensures name !in COLOR_MAP && name in OBJECT_PROTOTYPE_MEMBERS ==> color == InheritedText(name)
    ensures name !in COLOR_MAP && name !in OBJECT_PROTOTYPE_MEMBERS ==> color == "emerald"
  {
    if name in COLOR_MAP && COLOR_MAP[name] != "" then COLOR_MAP[name]
    else if name in OBJECT_PROTOTYPE_MEMBERS then InheritedText(name)
    else "emerald"
  }

  /** A name that starts with a capital letter. */
  predicate Capitalised(name: string) {
    name != [] && 'A' <= name[0] <= 'Z'
  }

  /** Every name of the two tables is capitalised. */
  lemma TableNamesCapitalised()
    ensures forall name :: name in ICON_MAP ==> Capitalised(name)
    ensures forall name :: name in COLOR_MAP ==> Capitalised(name)
  {
  }

  /** No inherited member is capitalised, so the tables never shadow one. */
  lemma MembersNotCapitalised()
    ensures forall name :: name in OBJECT_PROTOTYPE_MEMBERS ==> !Capitalised(name)
  {
  }

  /** A metric named after an inherited member gets that member for its icon and its text for its colour, never the fallbacks. */
  lemma InheritedNamesSkipFallbacks(name: string)
    requires name in OBJECT_PROTOTYPE_MEMBERS
    ensures IconFor(name) == Inherited(name) && IconFor(name) != Shield
    ensures ColorFor(name) == InheritedText(name) && ColorFor(name) != "emerald"
  {
    TableNamesCapitalised();
    MembersNotCapitalised();
    assert name !in ICON_MAP && name !in COLOR_MAP;
    var text := InheritedText(name);
    assert text[0] == '[' || text[0] == 'f';
  }

  /** The cards shown when no metrics are given. */
  const DEFAULT_SCORES: seq<MetricScore> := [
    MetricScore("Security Vulnerabilities", 8.2, Some("Reentrancy, " + "overflow, access " + "control issues")),
    MetricScore("Gas Optimization", 7.6, Some("Efficient loops, " + "storage usage, " + "function calls")),
    MetricScore("Code Quality", 9.1, Some("Readability, " + "modularity, best " + "practices"))
  ]

  /** The cap on the number of cards. */
  const MAX_CARDS: nat := 8

  /** `(metrics.length > 0 ? metrics : defaultScores).slice(0, 8)`. */
  function DisplayMetrics(metrics: seq<MetricScore>): (r: seq<MetricScore>)
    ensures |metrics| == 0 ==> r == DEFAULT_SCORES
    ensures |metrics| > 0 ==> |r| == (if |metrics| < MAX_CARDS then |metrics| else MAX_CARDS)
    ensures |metrics| > 0 ==> r <= metrics
    ensures |r| <= MAX_CARDS
  {
    var shown := if |metrics| > 0 then metrics else DEFAULT_SCORES;
    if |shown| <= MAX_CARDS then shown else shown[..MAX_CARDS]
  }

  /** `metric.score > 10 ? metric.score / 10 : metric.score`: a score out of 100 is brought to a score out of 10. */
  function NormalizedScore(score: real): (r: real)
    ensures score <= 10.0 ==> r == score
    ensures score > 10.0 ==> r * 10.0 == score
    ensures 0.0 <= score <= 100.0 ==> 0.0 <= r <= 10.0
  {
    if score > 10.0 then score / 10.0 else score
  }

  /** Normalising is not monotone: a score just above 10 draws a shorter arc than 10 itself. */
  lemma NormalizedScoreNotMonotone()
    ensures NormalizedScore(10.0) == 10.0 && NormalizedScore(11.0) == 1.1
  {
  }

  /** One card: its icon, colour, title, optional description, arc length (out of 10) and the number written in it. */
  datatype Card = Card(icon: Icon, color: string, title: string, description: Option<string>, arc: real, shown: real)

  /** The card of one metric; the number written is the raw score, the arc the normalised one. */
  function CardFor(m: MetricScore): (c: Card)
    ensures c.title == m.metric && c.shown == m.score && c.arc == NormalizedScore(m.score)
    ensures c.icon == IconFor(m.metric) && c.color == ColorFor(m.metric)
    ensures c.description == if m.description.Some? && m.description.value != "" then m.description else None
  {
    Card(IconFor(m.metric), ColorFor(m.metric), m.metric,
         if m.description.Some? && m.description.value != "" then m.description else None,
         NormalizedScore(m.score), m.score)
  }

  /** `Scorecards({ metrics })`: the cards, in the order of the shown metrics. */
  function Cards(metrics: seq<MetricScore>): (cards: seq<Card>)
    ensures |cards| == |DisplayMetrics(metrics)| <= MAX_CARDS
    ensures forall i :: 0 <= i < |cards| ==> cards[i] == CardFor(DisplayMetrics(metrics)[i])
  {
    var shown := DisplayMetrics(metrics);
    seq(|shown|, i requires 0 <= i < |shown| => CardFor(shown[i]))
  }

  /** A card for a score out of 100 writes that score but draws its tenth. */
  lemma RawScoreShown(m: MetricScore)
    requires 10.0 < m.score
    ensures CardFor(m).shown == m.score && CardFor(m).arc * 10.0 == m.score
  {
  }

  /** The icons and colours of the eight metrics the prompt asks for, in the prompt's order. */
  const CANONICAL_ICONS: seq<Icon> := [Shield, Zap, Code, Lock, CheckSquare, Brain, ArrowUp, FileText]
  const CANONICAL_COLORS: seq<string> := ["red", "yellow", "blue", "purple", "green", "indigo", "pink", "cyan"]

  /** Every metric the prompt asks for has its entry in `iconMap`. */
  lemma CanonicalIcons()
    ensures var names := AuditPrompt.GetMetrics();
            forall i :: 0 <= i < |names| ==> names[i] in ICON_MAP && ICON_MAP[names[i]] == CANONICAL_ICONS[i]
  {
    var names := AuditPrompt.GetMetrics();
    assert names == ["Security Vulnerabilities", "Gas Optimization", "Code Quality", "Access Control",
                     "Input Validation", "Business Logic", "Upgradability", "Documentation"];
  }

  /** Every metric the prompt asks for has its entry in `colorMap`. */
  lemma CanonicalColors()
    ensures var names := AuditPrompt.GetMetrics();
            forall i :: 0 <= i < |names| ==> names[i] in COLOR_MAP && COLOR_MAP[names[i]] == CANONICAL_COLORS[i]
  {
    var names := AuditPrompt.GetMetrics();
    assert names == ["Security Vulnerabilities", "Gas Optimization", "Code Quality", "Access Control",
                     "Input Validation", "Business Logic", "Upgradability", "Documentation"];
  }

  /** The eight metrics the prompt asks for get eight different icons and eight different colours. */
  lemma CanonicalMetricsDistinguished()
    ensures var names := AuditPrompt.GetMetrics();
            forall i, j :: 0 <= i < j < |names| ==>
              IconFor(names[i]) != IconFor(names[j]) && ColorFor(names[i]) != ColorFor(names[j])
  {
    CanonicalIcons();
    CanonicalColors();
    var names := AuditPrompt.GetMetrics();
    forall i, j | 0 <= i < j < |names|
      ensures IconFor(names[i]) != IconFor(names[j]) && ColorFor(names[i]) != ColorFor(names[j])
    {
      assert CANONICAL_COLORS[i] != "" && CANONICAL_COLORS[j] != "";
      assert CANONICAL_COLORS[i][0] != CANONICAL_COLORS[j][0] || |CANONICAL_COLORS[i]| != |CANONICAL_COLORS[j]|;
    }
  }

  /** A name outside the table gets the shield and "emerald". */
  lemma UnknownNameFallsBack(m: MetricScore)
    requires m.metric !in ICON_MAP && m.metric !in COLOR_MAP && m.metric !in OBJECT_PROTOTYPE_MEMBERS
    ensures CardFor(m).icon == Shield && CardFor(m).color == "emerald"
  {
  }

  // ---------------------------------------------------------------- the untyped hand-off

  /**
   * An entry as a `MetricScore`, when it has that shape: an object with a
   * string `metric`, a number `score` and a `description` that is a string
   * or absent.
   */
  function AsMetricScore(entry: Js.Value): (m: Option<MetricScore>)
    ensures m.Some? ==> entry.Obj? && Js.Get(entry, "metric") == Js.Str(m.value.metric)
                        && Js.Get(entry, "score") == Js.Num(m.value.score)
  {
    var name := Js.Get(entry, "metric");
    var score := Js.Get(entry, "score");
    var description := Js.Get(entry, "description");
    if entry.Obj? && name.Str? && score.Num? && (description.Undefined? || description.Str?) then
      Some(MetricScore(name.s, score.n, if description.Str? then Some(description.s) else None))
    else None
  }

  /** Every entry has the `MetricScore` shape. */
  predicate AllTyped(entries: seq<Js.Value>) {
    forall i :: 0 <= i < |entries| ==> AsMetricScore(entries[i]).Some?
  }

  /** The entries as metric scores, in order. */
  function ConvertAll(entries: seq<Js.Value>): (r: seq<MetricScore>)
    requires AllTyped(entries)
    ensures |r| == |entries| && forall i :: 0 <= i < |r| ==> Some(r[i]) == AsMetricScore(entries[i])
  {
    seq(|entries|, i requires 0 <= i < |entries| => AsMetricScore(entries[i]).value)
  }

  /** The first nullish entry at or after `from`. */
  function FirstNullish(entries: seq<Js.Value>, from: nat): (r: Option<nat>)
    requires from <= |entries|
    ensures r.Some? ==> from <= r.value < |entries| && Js.Nullish(entries[r.value])
                        && forall i :: from <= i < r.value ==> !Js.Nullish(entries[i])
    ensures r.None? ==> forall i :: from <= i < |entries| ==> !Js.Nullish(entries[i])
    decreases |entries| - from
  {
    if from == |entries| then None
    else if Js.Nullish(entries[from]) then Some(from)
    else FirstNullish(entries, from + 1)
  }

  /**
   * `metrics.length > 0`: arrays and strings have a length; an object is
   * read through its `length` property, counted when that is a positive
   * number; other values have none, and `undefined > 0` is false.
   */
  predicate LengthAboveZero(metrics: Js.Value) {
    match metrics
    case Arr(items) => |items| > 0
    case Str(s) => |s| > 0
    case Obj(_) => Js.Get(metrics, "length").Num? && Js.Get(metrics, "length").n > 0.0
    case _ => false
  }

  /**
   * The cards of the shown entries of an array, in order: the `TypeError` of
   * the first nullish entry, whose `metric` cannot be read; otherwise
   * `Some(cards)` when every entry has the `MetricScore` shape and `None`
   * when some entry does not (what React draws for it is not modelled).
   */
  function EntryCards(shown: seq<Js.Value>): (r: Result<Option<seq<Card>>, Thrown>)
    requires 0 < |shown| <= MAX_CARDS
    ensures r.Failure? <==> exists k :: 0 <= k < |shown| && Js.Nullish(shown[k])
    ensures r.Failure? ==>
              exists k :: 0 <= k < |shown| && Js.Nullish(shown[k])
                && r.error == PropertyOfNullish(shown[k].Null?, "metric")
                && forall i :: 0 <= i < k ==> !Js.Nullish(shown[i])
    ensures r == Success(None) <==> r.Success? && !AllTyped(shown)
    ensures r.Success? && AllTyped(shown) ==>
              r.value.Some? && |r.value.value| == |shown|
              && forall i :: 0 <= i < |shown| ==> r.value.value[i] == CardFor(AsMetricScore(shown[i]).value)
  {
    match FirstNullish(shown, 0)
    case Some(k) => Failure(PropertyOfNullish(shown[k].Null?, "metric"))
    case None => if AllTyped(shown) then Success(Some(Cards(ConvertAll(shown)))) else Success(None)
  }

  /** `metrics.slice(0, 8)` of a non-empty array. */
  function Shown(items: seq<Js.Value>): (r: seq<Js.Value>)
    requires items != []
    ensures 0 < |r| <= MAX_CARDS && r <= items
    ensures |r| == if |items| <= MAX_CARDS then |items| else MAX_CARDS
  {
    if |items| <= MAX_CARDS then items else items[..MAX_CARDS]
  }

  /**
   * `<Scorecards metrics={value} />` with whatever value the page passes:
   * `undefined` takes the default `[]`; a value that fails the length test
   * draws the default cards; a string has `slice` but no `map`, an object no
   * `slice`; a non-empty array draws the cards of its first eight entries.
   */
  function ScorecardsOf(metrics: Js.Value): (r: Result<Option<seq<Card>>, Thrown>)
    ensures metrics.Undefined? ==> r == Success(Some(Cards([])))
    ensures metrics.Null? ==> r == Failure(PropertyOfNullish(true, "length"))
    ensures !Js.Nullish(metrics) && !LengthAboveZero(metrics) ==> r == Success(Some(Cards([])))
    ensures metrics.Str? && metrics.s != "" ==> r == Failure(NotAFunction("displayMetrics.slice(...).map"))
    ensures metrics.Obj? && LengthAboveZero(metrics) ==> r == Failure(NotAFunction("displayMetrics.slice"))
    ensures metrics.Arr? && metrics.items != [] ==> r == EntryCards(Shown(metrics.items))
  {
    var m := if metrics.Undefined? then Js.Arr([]) else metrics;
    if m.Null? then Failure(PropertyOfNullish(true, "length"))
    else if !LengthAboveZero(m) then Success(Some(Cards([])))
    else if m.Str? then Failure(NotAFunction("displayMetrics.slice(...).map"))
    else if m.Arr? then EntryCards(Shown(m.items))
    else Failure(NotAFunction("displayMetrics.slice"))
  }

  /** With no metrics, the three default cards are drawn. */
  lemma NoMetricsShowDefaults()
    ensures |Cards([])| == 3
    ensures forall i :: 0 <= i < 3 ==> Cards([])[i] == CardFor(DEFAULT_SCORES[i])
  {
  }
}
