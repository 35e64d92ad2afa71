/**
 * The audit result as the pages read it: an array of sections, or an object
 * whose values (sections or arrays of sections) are flattened into one list;
 * a section is found by its exact `section` name with `Array.prototype.find`.
 */
module AuditSections {
  import opened Wrappers
  import Js
  import opened Exceptions
  import PromptText

  /** The section names the prompt asks the model for. */
  const AUDIT_REPORT := PromptText.AUDIT_REPORT
  const METRIC_SCORES := PromptText.METRIC_SCORES
  const SUGGESTIONS := PromptText.SUGGESTIONS_FOR_IMPROVEMENT

  /** `Array.isArray(data) ? data : Object.values(data).flat()`. */
  function Normalize(data: Js.Value): (r: seq<Js.Value>)
    requires !Js.Nullish(data)
    ensures data.Arr? ==> r == data.items
    ensures data.Obj? && (forall i :: 0 <= i < |data.fields| ==> !data.fields[i].1.Arr?) ==>
              |r| == |data.fields| && forall i :: 0 <= i < |r| ==> r[i] == data.fields[i].1
    ensures data.Obj? ==> r == Js.Flat(Js.ObjectValues(data))
  {
    if data.Arr? then data.items else Js.Flat(Js.ObjectValues(data))
  }

  /** A one-field object `{ key: v }` gives the items of `v` when it is an array, and `v` alone otherwise. */
  lemma NormalizeField(key: string, v: Js.Value)
    ensures Normalize(Js.Obj([(key, v)])) == if v.Arr? then v.items else [v]
  {
    assert Js.ObjectValues(Js.Obj([(key, v)])) == [v];
    Js.FlatSingle(v);
  }

  /** The sections of an object are those of its leading fields followed by those of the rest, in field order. */
  lemma NormalizeFieldsAppend(f: seq<(string, Js.Value)>, g: seq<(string, Js.Value)>)
    ensures Normalize(Js.Obj(f + g)) == Normalize(Js.Obj(f)) + Normalize(Js.Obj(g))
  {
    Js.ObjectValuesAppend(f, g);
    Js.FlatAppend(Js.ObjectValues(Js.Obj(f)), Js.ObjectValues(Js.Obj(g)));
  }

  /** `section.section === name`; reading `section` of `null` or `undefined` throws. */
  predicate Named(section: Js.Value, name: string) {
    Js.Get(section, "section") == Js.Str(name)
  }

  /**
   * `sections.find(section => section.section === name)`: the first section
   * with that name, `None` when there is none, or the `TypeError` of a
   * nullish element met before it.
   */
  function Find(sections: seq<Js.Value>, name: string): (r: Result<Option<Js.Value>, Thrown>)
    ensures r == Success(None) <==>
              forall i :: 0 <= i < |sections| ==> !Js.Nullish(sections[i]) && !Named(sections[i], name)
    ensures r.Success? && r.value.Some? ==>
              exists k :: 0 <= k < |sections| && sections[k] == r.value.value && Named(sections[k], name)
                && forall i :: 0 <= i < k ==> !Js.Nullish(sections[i]) && !Named(sections[i], name)
    ensures r.Failure? ==>
              exists k :: 0 <= k < |sections| && Js.Nullish(sections[k])
                && r.error == PropertyOfNullish(sections[k].Null?, "section")
                && forall i :: 0 <= i < k ==> !Js.Nullish(sections[i]) && !Named(sections[i], name)
  {
    if sections == [] then Success(None)
    else if Js.Nullish(sections[0]) then Failure(PropertyOfNullish(sections[0].Null?, "section"))
    else if Named(sections[0], name) then Success(Some(sections[0]))
    else
      var r := Find(sections[1..], name);
      assert forall i :: 1 <= i < |sections| ==> sections[i] == sections[1..][i - 1];
      r
  }

  /** With no nullish element, the section found is the first one of that name. */
  lemma {:induction false} FindFirstNamed(sections: seq<Js.Value>, name: string, k: nat)
    requires k < |sections| && Named(sections[k], name)
    requires forall i :: 0 <= i < k ==> !Js.Nullish(sections[i]) && !Named(sections[i], name)
    ensures Find(sections, name) == Success(Some(sections[k]))
  {
    if k > 0 {
      assert !Js.Nullish(sections[0]) && !Named(sections[0], name);
      FindFirstNamed(sections[1..], name, k - 1);
    }
  }

  /** `{ section: name, details: details }`. */
  function Section(name: string, details: Js.Value): Js.Value {
    Js.Obj([("section", Js.Str(name)), ("details", details)])
  }

  /** The `details` of a section built by `Section`. */
  lemma SectionDetails(name: string, details: Js.Value)
    ensures Named(Section(name, details), name)
    ensures Js.Get(Section(name, details), "details") == details
  {
    Js.LookupFirst([("section", Js.Str(name)), ("details", details)], "details", 1);
  }
}
