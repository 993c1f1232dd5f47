/**
 * The administrators' template table (`AdminTable`): the fetched templates,
 * a search box and two drop-down filters whose options are the distinct
 * categories and age ranges present, and deletion after a confirmation.
 *
 * The component's effect that re-runs `filterTemplates` whenever the list or
 * a filter changes is modelled as running at the end of every operation that
 * changes one of them.
 */
module AdminTable {
  import opened Wrappers
  import opened Schema
  import opened Http
  import opened Text
  import Seqs
  import UseTemplates

  /** A non-empty search keeps the templates whose title or description contains it, case aside. */
  predicate SearchOk(search: string, t: Template) {
    search != "" ==> UseTemplates.SearchMatches(t.title, t.description, search)
  }

  /** A non-empty category filter keeps exact matches. */
  predicate CategoryOk(category: string, t: Template) {
    category != "" ==> t.category == category
  }

  /** A non-empty age-range filter keeps exact matches. */
  predicate AgeRangeOk(ageRange: string, t: Template) {
    ageRange != "" ==> t.ageRange == ageRange
  }

  /** The test the three successive filters of `filterTemplates` apply together. */
  predicate AdminMatches(search: string, category: string, ageRange: string, t: Template) {
    SearchOk(search, t) && CategoryOk(category, t) && AgeRangeOk(ageRange, t)
  }

  /** The list `filterTemplates` keeps: the matching templates, in their order. */
  function AdminFiltered(ts: seq<Template>, search: string, category: string, ageRange: string)
    : (r: seq<Template>)
    ensures Seqs.IsSubsequence(r, ts)
    ensures |r| == Seqs.CountIf(ts, t => AdminMatches(search, category, ageRange, t))
    ensures forall i :: 0 <= i < |r| ==>
      search != "" ==> UseTemplates.SearchMatches(r[i].title, r[i].description, search)
    ensures forall i :: 0 <= i < |r| ==> category != "" ==> r[i].category == category
    ensures forall i :: 0 <= i < |r| ==> ageRange != "" ==> r[i].ageRange == ageRange
    ensures forall i :: 0 <= i < |ts| && AdminMatches(search, category, ageRange, ts[i]) ==> ts[i] in r
  {
    Seqs.Filter(ts, t => AdminMatches(search, category, ageRange, t))
  }

  /** Empty filter strings filter nothing. */
  lemma EmptyFiltersKeepAll(ts: seq<Template>)
    ensures AdminFiltered(ts, "", "", "") == ts
  {
    Seqs.FilterAll(ts, t => AdminMatches("", "", "", t));
  }

  /**
   * `filterTemplates`: starting from the whole list, each non-empty filter
   * narrows the previous result in turn; the outcome is the one-pass filter
   * by all three tests.
   */
  method ApplyFilters(ts: seq<Template>, search: string, category: string, ageRange: string)
    returns (filtered: seq<Template>)
    ensures filtered == AdminFiltered(ts, search, category, ageRange)
  {
    var q1 := (t: Template) => SearchOk(search, t);
    var q2 := (t: Template) => SearchOk(search, t) && CategoryOk(category, t);
    var q3 := (t: Template) => AdminMatches(search, category, ageRange, t);
    filtered := ts;
    if search != "" {
      var p := (t: Template) => UseTemplates.SearchMatches(t.title, t.description, search);
      filtered := Seqs.Filter(filtered, p);
      Seqs.FilterCongruent(ts, p, q1);
    } else {
      Seqs.FilterAll(ts, q1);
    }
    if category != "" {
      var p := (t: Template) => t.category == category;
      filtered := Seqs.Filter(filtered, p);
      Seqs.FilterCompose(ts, q1, p, q2);
    } else {
      Seqs.FilterCongruent(ts, q1, q2);
    }
    if ageRange != "" {
      var p := (t: Template) => t.ageRange == ageRange;
      filtered := Seqs.Filter(filtered, p);
      Seqs.FilterCompose(ts, q2, p, q3);
    } else {
      Seqs.FilterCongruent(ts, q2, q3);
    }
  }

  /** `templates.map(t => t.category)`. */
  function Categories(ts: seq<Template>): (cs: seq<string>)
    ensures |cs| == |ts|
    ensures forall i :: 0 <= i < |ts| ==> cs[i] == ts[i].category
  {
    Seqs.Map(ts, (t: Template) => t.category)
  }

  /** `templates.map(t => t.ageRange)`. */
  function AgeRanges(ts: seq<Template>): (as_: seq<string>)
    ensures |as_| == |ts|
    ensures forall i :: 0 <= i < |ts| ==> as_[i] == ts[i].ageRange
  {
    Seqs.Map(ts, (t: Template) => t.ageRange)
  }

  /** The categories, each once, in order of first appearance (`[...new Set(...)]`). */
  function UniqueCategories(ts: seq<Template>): (r: seq<string>)
    ensures Seqs.Distinct(r)
    ensures forall c :: c in r <==> exists i :: 0 <= i < |ts| && ts[i].category == c
    ensures forall i :: 0 <= i < |r| ==> r[i] in Categories(ts)
    ensures forall i, j :: 0 <= i < j < |r| ==>
      Seqs.FirstIndex(Categories(ts), r[i]) < Seqs.FirstIndex(Categories(ts), r[j])
  {
    var cs := Categories(ts);
    var r := Seqs.Dedupe(cs);
    Seqs.DedupeOrder(cs);
    assert forall c :: c in r ==> exists i :: 0 <= i < |ts| && ts[i].category == c by {
      forall c | c in r ensures exists i :: 0 <= i < |ts| && ts[i].category == c {
        var k :| 0 <= k < |r| && r[k] == c;
        var i :| 0 <= i < |cs| && cs[i] == c;
      }
    }
    assert forall i :: 0 <= i < |ts| ==> ts[i].category in r by {
      forall i | 0 <= i < |ts| ensures ts[i].category in r {
        assert cs[i] == ts[i].category;
      }
    }
    r
  }

  /** The age ranges, each once, in order of first appearance. */
  function UniqueAgeRanges(ts: seq<Template>): (r: seq<string>)
    ensures Seqs.Distinct(r)
    ensures forall a :: a in r <==> exists i :: 0 <= i < |ts| && ts[i].ageRange == a
    ensures forall i :: 0 <= i < |r| ==> r[i] in AgeRanges(ts)
    ensures forall i, j :: 0 <= i < j < |r| ==>
      Seqs.FirstIndex(AgeRanges(ts), r[i]) < Seqs.FirstIndex(AgeRanges(ts), r[j])
  {
    var as_ := AgeRanges(ts);
    var r := Seqs.Dedupe(as_);
    Seqs.DedupeOrder(as_);
    assert forall a :: a in r ==> exists i :: 0 <= i < |ts| && ts[i].ageRange == a by {
      forall a | a in r ensures exists i :: 0 <= i < |ts| && ts[i].ageRange == a {
        var k :| 0 <= k < |r| && r[k] == a;
        var i :| 0 <= i < |as_| && as_[i] == a;
      }
    }
    assert forall i :: 0 <= i < |ts| ==> ts[i].ageRange in r by {
      forall i | 0 <= i < |ts| ensures ts[i].ageRange in r {
        assert as_[i] == ts[i].ageRange;
      }
    }
    r
  }

  class Table {
    var templates: seq<Template>
    var filtered: seq<Template>
    var searchTerm: string
    var categoryFilter: string
    var ageRangeFilter: string
    var loading: bool
    var error: Option<string>

    /** The shown list is the filtered list of the current templates and filters. */
    predicate Synced()
      reads this
    {
      filtered == AdminFiltered(templates, searchTerm, categoryFilter, ageRangeFilter)
    }

    /** The component's first render: nothing fetched, loading, empty filters. */
    constructor ()
      ensures templates == [] && filtered == [] && loading && error == None
      ensures searchTerm == "" && categoryFilter == "" && ageRangeFilter == ""
      ensures Synced()
    {
      templates := [];
      filtered := [];
      searchTerm := "";
      categoryFilter := "";
      ageRangeFilter := "";
      loading := true;
      error := None;
    }

    /** The effect: `filterTemplates` stores the filtered list. */
    method FilterTemplates()
      modifies this
      ensures Synced()
      ensures templates == old(templates) && searchTerm == old(searchTerm)
      ensures categoryFilter == old(categoryFilter) && ageRangeFilter == old(ageRangeFilter)
      ensures loading == old(loading) && error == old(error)
    {
      filtered := ApplyFilters(templates, searchTerm, categoryFilter, ageRangeFilter);
    }

    /**
     * `fetchTemplates`: the response replaces the list; a failure sets a fixed
     * message (the server's is not shown). Loading ends either way.
     */
    method FetchTemplates(response: Response<seq<Template>>)
      modifies this
      ensures !loading && Synced()
      ensures response.Ok? ==> templates == response.data && error == old(error)
      ensures response.Failed? ==> templates == old(templates)
      ensures response.Failed? ==> error == Some("Erreur lors du chargement des templates")
      ensures searchTerm == old(searchTerm)
      ensures categoryFilter == old(categoryFilter) && ageRangeFilter == old(ageRangeFilter)
    {
      loading := true;
      match response {
        case Ok(ts) => templates := ts;
        case Failed(_) => error := Some("Erreur lors du chargement des templates");
      }
      loading := false;
      FilterTemplates();
    }

    /** The search box's `onChange`. */
    method SetSearchTerm(s: string)
      modifies this
      ensures searchTerm == s && Synced()
      ensures templates == old(templates) && loading == old(loading) && error == old(error)
      ensures categoryFilter == old(categoryFilter) && ageRangeFilter == old(ageRangeFilter)
    {
      searchTerm := s;
      FilterTemplates();
    }

    /** The category drop-down's `onChange`. */
    method SetCategoryFilter(c: string)
      modifies this
      ensures categoryFilter == c && Synced()
      ensures templates == old(templates) && loading == old(loading) && error == old(error)
      ensures searchTerm == old(searchTerm) && ageRangeFilter == old(ageRangeFilter)
    {
      categoryFilter := c;
      FilterTemplates();
    }

    /** The age-range drop-down's `onChange`. */
    method SetAgeRangeFilter(a: string)
      modifies this
      ensures ageRangeFilter == a && Synced()
      ensures templates == old(templates) && loading == old(loading) && error == old(error)
      ensures searchTerm == old(searchTerm) && categoryFilter == old(categoryFilter)
    {
      ageRangeFilter := a;
      FilterTemplates();
    }

    /**
     * `handleDelete(id)`: nothing happens unless the user confirms; after a
     * successful request the templates with that id are dropped, and a failed
     * one sets the error and keeps the list.
     */
    method HandleDelete(id: string, confirmed: bool, outcome: Response<()>)
      modifies this
      requires Synced()
      ensures Synced()
      ensures !confirmed ==> templates == old(templates) && error == old(error)
      ensures confirmed && outcome.Ok? ==> templates == UseTemplates.WithoutId(old(templates), id)
      ensures confirmed && outcome.Ok? ==> error == old(error)
      ensures confirmed && outcome.Failed? ==> templates == old(templates)
      ensures confirmed && outcome.Failed? ==> error == Some("Erreur lors de la suppression du template")
      ensures loading == old(loading) && searchTerm == old(searchTerm)
      ensures categoryFilter == old(categoryFilter) && ageRangeFilter == old(ageRangeFilter)
    {
      if !confirmed {
        return;
      }
      match outcome {
        case Ok(_) =>
          templates := UseTemplates.WithoutId(templates, id);
          FilterTemplates();
        case Failed(_) =>
          error := Some("Erreur lors de la suppression du template");
      }
    }
  }
}
