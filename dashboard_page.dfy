/**
 * `DashboardPage`: reads the last audit back from browser storage, extracts
 * its metric scores for the cards, exports it to PDF and clears it. Browser
 * storage is a map from keys to strings; `JSON.parse` is the `decode`
 * parameter, `None` where it throws.
 */
module DashboardPage {
  import opened Wrappers
  import Js
  import AuditSections
  import Scorecards
  import opened Exceptions

  const RESULTS_KEY := "auditResults"
  const CONTRACT_KEY := "contractCode"

  /** `localStorage.getItem(key)` read as a truthy string. */
  predicate Saved(storage: map<string, string>, key: string) {
    key in storage && storage[key] != ""
  }

  /**
   * `getMetricScores()`: `[]` without audit data; otherwise the `details` of
   * the first "Metric Scores" section, or `[]` when there is none or its
   * details are falsy. Reading `section` of a nullish section throws.
   */
  function GetMetricScores(auditData: Js.Value): (r: Result<Js.Value, Thrown>)
    ensures !Js.Truthy(auditData) ==> r == Success(Js.Arr([]))
    ensures Js.Truthy(auditData) ==>
              match AuditSections.Find(AuditSections.Normalize(auditData), AuditSections.METRIC_SCORES)
              case Failure(e) => r == Failure(e)
              case Success(None) => r == Success(Js.Arr([]))
              case Success(Some(section)) =>
                r == Success(if Js.Truthy(Js.Get(section, "details")) then Js.Get(section, "details") else Js.Arr([]))
    ensures r.Success? ==> Js.Truthy(r.value)
  {
    if !Js.Truthy(auditData) then Success(Js.Arr([]))
    else
      match AuditSections.Find(AuditSections.Normalize(auditData), AuditSections.METRIC_SCORES)
      case Failure(e) => Failure(e)
      case Success(found) =>
        var details := if found.Some? then Js.Get(found.value, "details") else Js.Undefined;
        Success(if Js.Truthy(details) then details else Js.Arr([]))
  }

  /** The cards get the details of the first "Metric Scores" section when no nullish section precedes it. */
  lemma MetricScoresOfFirstSection(sections: seq<Js.Value>, k: nat, details: Js.Value)
    requires k < |sections| && sections[k] == AuditSections.Section(AuditSections.METRIC_SCORES, details)
    requires forall i :: 0 <= i < k ==>
               !Js.Nullish(sections[i]) && !AuditSections.Named(sections[i], AuditSections.METRIC_SCORES)
    requires Js.Truthy(details)
    ensures GetMetricScores(Js.Arr(sections)) == Success(details)
  {
    AuditSections.SectionDetails(AuditSections.METRIC_SCORES, details);
    AuditSections.FindFirstNamed(sections, AuditSections.METRIC_SCORES, k);
  }

  /** An object result is searched through its values, flattened one level. */
  lemma MetricScoresOfObject(fields: seq<(string, Js.Value)>, details: Js.Value)
    requires fields == [("report", Js.Arr([AuditSections.Section(AuditSections.METRIC_SCORES, details)]))]
    requires Js.Truthy(details)
    ensures GetMetricScores(Js.Obj(fields)) == Success(details)
  {
    var sections := AuditSections.Normalize(Js.Obj(fields));
    assert Js.ObjectValues(Js.Obj(fields)) == [fields[0].1];
    assert sections == [AuditSections.Section(AuditSections.METRIC_SCORES, details)];
    MetricScoresOfFirstSection(sections, 0, details);
  }

  /** `<Scorecards metrics={getMetricScores()} />`: the cards the page draws, or what it throws. */
  function MetricsOverview(auditData: Js.Value): (r: Result<Option<seq<Scorecards.Card>>, Thrown>)
    ensures !Js.Truthy(auditData) ==> r == Success(Some(Scorecards.Cards([])))
    ensures r.Success? && r.value.Some? ==> 0 < |r.value.value| <= Scorecards.MAX_CARDS
  {
    match GetMetricScores(auditData)
    case Failure(e) => Failure(e)
    case Success(details) => Scorecards.ScorecardsOf(details)
  }

  /** Metric scores given as a non-empty string pass the length test and then make `map` throw. */
  lemma StringDetailsThrow(sections: seq<Js.Value>, k: nat, s: string)
    requires k < |sections| && sections[k] == AuditSections.Section(AuditSections.METRIC_SCORES, Js.Str(s))
    requires forall i :: 0 <= i < k ==>
               !Js.Nullish(sections[i]) && !AuditSections.Named(sections[i], AuditSections.METRIC_SCORES)
    requires s != ""
    ensures MetricsOverview(Js.Arr(sections)) == Failure(NotAFunction("displayMetrics.slice(...).map"))
  {
    MetricScoresOfFirstSection(sections, k, Js.Str(s));
  }

  /** Metric scores given as an object without a `length` field fail the length test, so the default cards are drawn. */
  lemma ObjectDetailsShowDefaults(sections: seq<Js.Value>, k: nat, fields: seq<(string, Js.Value)>)
    requires k < |sections| && sections[k] == AuditSections.Section(AuditSections.METRIC_SCORES, Js.Obj(fields))
    requires forall i :: 0 <= i < k ==>
               !Js.Nullish(sections[i]) && !AuditSections.Named(sections[i], AuditSections.METRIC_SCORES)
    requires forall i :: 0 <= i < |fields| ==> fields[i].0 != "length"
    ensures MetricsOverview(Js.Arr(sections)) == Success(Some(Scorecards.Cards([])))
  {
    MetricScoresOfFirstSection(sections, k, Js.Obj(fields));
  }

  /** Up to eight metric scores of the declared shape are drawn as one card each, in order. */
  lemma TypedDetailsShowCards(sections: seq<Js.Value>, k: nat, entries: seq<Js.Value>)
    requires k < |sections| && sections[k] == AuditSections.Section(AuditSections.METRIC_SCORES, Js.Arr(entries))
    requires forall i :: 0 <= i < k ==>
               !Js.Nullish(sections[i]) && !AuditSections.Named(sections[i], AuditSections.METRIC_SCORES)
    requires 0 < |entries| <= Scorecards.MAX_CARDS && Scorecards.AllTyped(entries)
    ensures var r := MetricsOverview(Js.Arr(sections));
            && r.Success? && r.value.Some? && |r.value.value| == |entries|
            && forall i :: 0 <= i < |entries| ==>
                 r.value.value[i] == Scorecards.CardFor(Scorecards.AsMetricScore(entries[i]).value)
  {
    MetricScoresOfFirstSection(sections, k, Js.Arr(entries));
    assert forall i :: 0 <= i < |entries| ==> !Js.Nullish(entries[i]) by {
      forall i | 0 <= i < |entries|
        ensures !Js.Nullish(entries[i])
      {
        assert Scorecards.AsMetricScore(entries[i]).Some?;
      }
    }
  }

  /** The page state with the storage it reads and writes. */
  class Dashboard {
    var auditData: Js.Value
    var contractCode: string
    var isLoading: bool
    var storage: map<string, string>

    /** First render: no data, no contract, loading. */
    constructor(storage: map<string, string>)
      ensures auditData == Js.Null && contractCode == "" && isLoading
      ensures this.storage == storage
    {
      auditData := Js.Null;
      contractCode := "";
      isLoading := true;
      this.storage := storage;
    }

    /**
     * The load effect: saved results that parse replace `auditData` (a parse
     * failure is logged and leaves it); a saved contract replaces
     * `contractCode`; loading ends. Storage is only read.
     */
    method Load(decode: string -> Option<Js.Value>)
      modifies this
      ensures Saved(storage, RESULTS_KEY) && decode(storage[RESULTS_KEY]).Some? ==>
                auditData == decode(storage[RESULTS_KEY]).value
      ensures !(Saved(storage, RESULTS_KEY) && decode(storage[RESULTS_KEY]).Some?) ==> auditData == old(auditData)
      ensures contractCode == if Saved(storage, CONTRACT_KEY) then storage[CONTRACT_KEY] else old(contractCode)
      ensures !isLoading && storage == old(storage)
    {
      if RESULTS_KEY in storage && storage[RESULTS_KEY] != "" {
        var parsed := decode(storage[RESULTS_KEY]);
        if parsed.Some? {
          auditData := parsed.value;
        }
      }
      if CONTRACT_KEY in storage && storage[CONTRACT_KEY] != "" {
        contractCode := storage[CONTRACT_KEY];
      }
      isLoading := false;
    }

    /** `clearResults`: both keys leave storage, and the page returns to its empty state. */
    method ClearResults()
      modifies this
      ensures storage == old(storage) - {RESULTS_KEY, CONTRACT_KEY}
      ensures RESULTS_KEY !in storage && CONTRACT_KEY !in storage
      ensures auditData == Js.Null && contractCode == "" && isLoading == old(isLoading)
    {
      storage := storage - {RESULTS_KEY};
      storage := storage - {CONTRACT_KEY};
      auditData := Js.Null;
      contractCode := "";
    }

    /** `exportResults`: the arguments `generatePDFReport` is called with, or `None` when there is no audit data. */
    method ExportResults() returns (call: Option<(Js.Value, string)>)
      ensures call.None? <==> !Js.Truthy(auditData)
      ensures call.Some? ==> call.value == (auditData, contractCode)
    {
      if !Js.Truthy(auditData) {
        return None;
      }
      call := Some((auditData, contractCode));
    }
  }

  /** After clearing, loading again finds nothing: the page stays empty and nothing is exported. */
  method ClearThenReload(d: Dashboard, decode: string -> Option<Js.Value>) returns (call: Option<(Js.Value, string)>)
    modifies d
    ensures d.auditData == Js.Null && d.contractCode == "" && !d.isLoading
    ensures call == None
  {
    d.ClearResults();
    d.Load(decode);
    call := d.ExportResults();
  }
}
