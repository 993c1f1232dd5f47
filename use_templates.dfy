/**
 * The template list hook (`useTemplates`): the fetched templates, the
 * filters the list page sets, and the optimistic status change and deletion.
 */
module UseTemplates {
  import opened Wrappers
  import opened Schema
  import opened Http
  import opened Text
  import Seqs

  /** The list filters; every field is optional. */
  datatype Filters = Filters(status: Option<Status>, category: Option<string>,
                             ageRange: Option<string>, search: Option<string>)

  /** All filters unset. */
  const InitialFilters := Filters(None, None, None, None)

  /** The case-insensitive search: the lower-cased query occurs in the lower-cased title or description. */
  predicate SearchMatches(title: string, description: string, query: string) {
    Includes(ToLower(title), ToLower(query)) || Includes(ToLower(description), ToLower(query))
  }

  /** The test `filteredTemplates` applies to one template. */
  predicate Matches(f: Filters, t: Template) {
    (f.status.Some? ==> t.status == f.status.value)
    && (Truthy(f.category) ==> t.category == f.category.value)
    && (Truthy(f.ageRange) ==> t.ageRange == f.ageRange.value)
    && (Truthy(f.search) ==> SearchMatches(t.title, t.description, f.search.value))
  }

  /**
   * `filteredTemplates`: the templates that pass every filter in force, in
   * their original order.
   */
  function FilteredTemplates(ts: seq<Template>, f: Filters): (r: seq<Template>)
    ensures Seqs.IsSubsequence(r, ts)
    ensures |r| == Seqs.CountIf(ts, t => Matches(f, t))
    ensures forall i :: 0 <= i < |r| ==> Matches(f, r[i])
    ensures forall i :: 0 <= i < |ts| && Matches(f, ts[i]) ==> ts[i] in r
  {
    Seqs.Filter(ts, t => Matches(f, t))
  }

  /** With no filter in force (the initial filters), every template is listed. */
  lemma InitialFiltersKeepAll(ts: seq<Template>)
    ensures FilteredTemplates(ts, InitialFilters) == ts
  {
    Seqs.FilterAll(ts, t => Matches(InitialFilters, t));
  }

  /** The optimistic map: status `s` on the templates with id `id`, the others as they were. */
  function SetStatusWhere(ts: seq<Template>, id: string, s: Status): (r: seq<Template>)
    ensures |r| == |ts|
    ensures forall i :: 0 <= i < |ts| ==> r[i] == if ts[i].id == id then ts[i].(status := s) else ts[i]
  {
    seq(|ts|, i requires 0 <= i < |ts| => if ts[i].id == id then ts[i].(status := s) else ts[i])
  }

  /** The other status: draft becomes public and every other status becomes draft. */
  function Flip(s: Status): (r: Status)
    ensures r != s
  {
    if s == Draft then Public else Draft
  }

  /** The failure branch's map: the templates with id `id` get the other status. */
  function FlipStatusWhere(ts: seq<Template>, id: string): (r: seq<Template>)
    ensures |r| == |ts|
    ensures forall i :: 0 <= i < |ts| ==>
      r[i] == if ts[i].id == id then ts[i].(status := Flip(ts[i].status)) else ts[i]
  {
    seq(|ts|, i requires 0 <= i < |ts| =>
      if ts[i].id == id then ts[i].(status := Flip(ts[i].status)) else ts[i])
  }

  /**
   * The optimistic update followed by the failure branch gives the list back
   * exactly when no template with that id already had the requested status;
   * otherwise such a template ends with the opposite of both.
   */
  lemma FlipRevertRestoresIff(ts: seq<Template>, id: string, s: Status)
    ensures FlipStatusWhere(SetStatusWhere(ts, id, s), id) == ts <==>
      forall i :: 0 <= i < |ts| && ts[i].id == id ==> ts[i].status != s
    ensures forall i :: 0 <= i < |ts| && ts[i].id == id ==>
      FlipStatusWhere(SetStatusWhere(ts, id, s), id)[i].status == Flip(s)
  {
    var r := FlipStatusWhere(SetStatusWhere(ts, id, s), id);
    if r == ts {
      forall i | 0 <= i < |ts| && ts[i].id == id ensures ts[i].status != s {
        assert r[i].status == Flip(s);
      }
    }
    if forall i :: 0 <= i < |ts| && ts[i].id == id ==> ts[i].status != s {
      forall i | 0 <= i < |ts| ensures r[i] == ts[i] {
        if ts[i].id == id {
          assert Flip(s) == ts[i].status;
        }
      }
    }
  }

  /**
   * The revert the failure branch evidently intends: putting back the status
   * the template had before the optimistic update undoes that update for
   * every requested status.
   */
  lemma RestoreRevertUndoes(ts: seq<Template>, id: string, s: Status, previous: Status)
    requires forall i :: 0 <= i < |ts| && ts[i].id == id ==> ts[i].status == previous
    ensures SetStatusWhere(SetStatusWhere(ts, id, s), id, previous) == ts
  {
    var r := SetStatusWhere(SetStatusWhere(ts, id, s), id, previous);
    forall i | 0 <= i < |ts| ensures r[i] == ts[i] {
    }
  }

  /** A public template asked to become public, with a failing request, ends up a draft. */
  lemma FlipRevertCounterexample(t: Template)
    requires t.status == Public
    ensures FlipStatusWhere(SetStatusWhere([t], t.id, Public), t.id) == [t.(status := Draft)]
  {
    var r := FlipStatusWhere(SetStatusWhere([t], t.id, Public), t.id);
    assert r[0] == t.(status := Draft);
  }

  /** The list without the templates whose id is `id`. */
  function WithoutId(ts: seq<Template>, id: string): (r: seq<Template>)
    ensures Seqs.IsSubsequence(r, ts)
    ensures |r| == Seqs.CountIf(ts, (t: Template) => t.id != id)
    ensures forall i :: 0 <= i < |r| ==> r[i].id != id
    ensures forall i :: 0 <= i < |ts| && ts[i].id != id ==> ts[i] in r
  {
    Seqs.Filter(ts, (t: Template) => t.id != id)
  }

  /**
   * The deletion the failure branch evidently intends: the list without the
   * template on success, and the list as it was when the request fails.
   */
  function DeleteWithRollback(ts: seq<Template>, id: string, succeeded: bool): (r: seq<Template>)
    ensures succeeded ==> forall i :: 0 <= i < |r| ==> r[i].id != id
    ensures !succeeded ==> r == ts
  {
    if succeeded then WithoutId(ts, id) else ts
  }

  /** A failing deletion of the only template leaves an empty list, where the rollback keeps it. */
  lemma DeleteFailureCounterexample(t: Template)
    ensures WithoutId([t], t.id) == []
    ensures DeleteWithRollback([t], t.id, false) == [t]
  {
  }

  class TemplatesStore {
    var templates: seq<Template>
    var loading: bool
    var error: Option<string>
    var filters: Filters

    /** The hook's first state: nothing fetched, loading, no filter. */
    constructor ()
      ensures templates == [] && loading && error == None && filters == InitialFilters
    {
      templates := [];
      loading := true;
      error := None;
      filters := InitialFilters;
    }

    /** The derived list shown on the page. */
    function Filtered(): seq<Template>
      reads this
    {
      FilteredTemplates(templates, filters)
    }

    /** `setFilters`: the filters are replaced as a whole. */
    method SetFilters(f: Filters)
      modifies this
      ensures filters == f
      ensures templates == old(templates) && loading == old(loading) && error == old(error)
    {
      filters := f;
    }

    /** `fetchTemplates`: the response replaces the list; a failure keeps it and sets the error. */
    method FetchTemplates(response: Response<seq<Template>>)
      modifies this
      ensures !loading && filters == old(filters)
      ensures response.Ok? ==> templates == response.data && error == None
      ensures response.Failed? ==> templates == old(templates)
      ensures response.Failed? ==>
        error == Some(ErrorText(response.message, "Erreur lors du chargement des templates"))
    {
      loading := true;
      error := None;
      match response {
        case Ok(ts) => templates := ts;
        case Failed(message) =>
          error := Some(ErrorText(message, "Erreur lors du chargement des templates"));
      }
      loading := false;
    }

    /**
     * `updateTemplateStatus(id, status)`: the status is set before the request;
     * when the request fails, the matching templates get the opposite of their
     * current status, the error is set and the failure is passed on.
     */
    method UpdateTemplateStatus(id: string, s: Status, outcome: Response<()>) returns (rethrown: bool)
      modifies this
      ensures outcome.Ok? ==> templates == SetStatusWhere(old(templates), id, s)
      ensures outcome.Ok? ==> !rethrown && error == old(error)
      ensures outcome.Failed? ==> templates == FlipStatusWhere(SetStatusWhere(old(templates), id, s), id)
      ensures outcome.Failed? ==> rethrown
      ensures outcome.Failed? ==>
        error == Some(ErrorText(outcome.message, "Erreur lors de la mise à jour du statut"))
      ensures loading == old(loading) && filters == old(filters)
    {
      templates := SetStatusWhere(templates, id, s);
      rethrown := false;
      if outcome.Failed? {
        templates := FlipStatusWhere(templates, id);
        error := Some(ErrorText(outcome.message, "Erreur lors de la mise à jour du statut"));
        rethrown := true;
      }
    }

    /**
     * `deleteTemplate(id)`: the templates with that id are dropped before the
     * request and are not put back when it fails; a failure sets the error and
     * is passed on.
     */
    method DeleteTemplate(id: string, outcome: Response<()>) returns (rethrown: bool)
      modifies this
      ensures templates == WithoutId(old(templates), id)
      ensures forall i :: 0 <= i < |templates| ==> templates[i].id != id
      ensures outcome.Ok? ==> !rethrown && error == old(error)
      ensures outcome.Failed? ==> rethrown
      ensures outcome.Failed? ==>
        error == Some(ErrorText(outcome.message, "Erreur lors de la suppression du template"))
      ensures loading == old(loading) && filters == old(filters)
    {
      templates := WithoutId(templates, id);
      rethrown := false;
      if outcome.Failed? {
        error := Some(ErrorText(outcome.message, "Erreur lors de la suppression du template"));
        rethrown := true;
      }
    }
  }
}
