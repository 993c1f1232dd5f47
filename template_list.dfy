/**
 * The template list page (`TemplateList`): the filter controls that rewrite
 * the list hook's filters, the option lists of the two drop-downs, the
 * delete-confirmation flow, and the message shown when nothing is listed.
 */
module TemplateList {
  import opened Wrappers
  import opened Schema
  import opened Http
  import opened Text
  import Seqs
  import UseTemplates
  import AdminTable

  type Filters = UseTemplates.Filters

  /** The search box: the typed text becomes the search filter. */
  function WithSearch(f: Filters, v: string): (r: Filters)
    ensures r.search == Some(v)
    ensures r.status == f.status && r.category == f.category && r.ageRange == f.ageRange
  {
    f.(search := Some(v))
  }

  /** The status drop-down: `'all'` clears the filter, `'draft'` or `'public'` sets it. */
  function WithStatusChoice(f: Filters, v: string): (r: Filters)
    ensures v == "all" ==> r.status == None
    ensures v != "all" ==> r.status == ParseStatus(v)
    ensures r.search == f.search && r.category == f.category && r.ageRange == f.ageRange
  {
    f.(status := if v == "all" then None else ParseStatus(v))
  }

  /** The category drop-down: `'all'` clears the filter, any other value is stored as it is. */
  function WithCategoryChoice(f: Filters, v: string): (r: Filters)
    ensures v == "all" ==> r.category == None
    ensures v != "all" ==> r.category == Some(v)
    ensures r.search == f.search && r.status == f.status && r.ageRange == f.ageRange
  {
    f.(category := if v == "all" then None else Some(v))
  }

  /** The age-range drop-down: `'all'` clears the filter, any other value is stored as it is. */
  function WithAgeRangeChoice(f: Filters, v: string): (r: Filters)
    ensures v == "all" ==> r.ageRange == None
    ensures v != "all" ==> r.ageRange == Some(v)
    ensures r.search == f.search && r.status == f.status && r.category == f.category
  {
    f.(ageRange := if v == "all" then None else Some(v))
  }

  /** Choosing a status's own option lists exactly the templates of that status among the other matches. */
  lemma StatusChoiceSelects(f: Filters, s: Status, t: Template)
    ensures UseTemplates.Matches(WithStatusChoice(f, s.Name()), t) <==>
      t.status == s && UseTemplates.Matches(WithStatusChoice(f, "all"), t)
  {
    StatusNameRoundTrip(s);
  }

  /** Choosing `'all'` in any drop-down never hides a template that was listed. */
  lemma AllWidens(f: Filters, t: Template)
    requires UseTemplates.Matches(f, t)
    ensures UseTemplates.Matches(WithStatusChoice(f, "all"), t)
    ensures UseTemplates.Matches(WithCategoryChoice(f, "all"), t)
    ensures UseTemplates.Matches(WithAgeRangeChoice(f, "all"), t)
  {
  }

  /** The category options: the distinct categories of the listed templates, in order of first appearance. */
  function CategoryOptions(ts: seq<Template>, f: Filters): (r: seq<string>)
    ensures Seqs.Distinct(r)
    ensures forall c :: c in r <==>
      exists i :: 0 <= i < |UseTemplates.FilteredTemplates(ts, f)| &&
        UseTemplates.FilteredTemplates(ts, f)[i].category == c
    ensures forall i :: 0 <= i < |r| ==> r[i] in AdminTable.Categories(UseTemplates.FilteredTemplates(ts, f))
    ensures forall i, j :: 0 <= i < j < |r| ==>
      var cs := AdminTable.Categories(UseTemplates.FilteredTemplates(ts, f));
      Seqs.FirstIndex(cs, r[i]) < Seqs.FirstIndex(cs, r[j])
  {
    AdminTable.UniqueCategories(UseTemplates.FilteredTemplates(ts, f))
  }

  /** The age-range options: the distinct age ranges of the listed templates, in order of first appearance. */
  function AgeRangeOptions(ts: seq<Template>, f: Filters): (r: seq<string>)
    ensures Seqs.Distinct(r)
    ensures forall a :: a in r <==>
      exists i :: 0 <= i < |UseTemplates.FilteredTemplates(ts, f)| &&
        UseTemplates.FilteredTemplates(ts, f)[i].ageRange == a
    ensures forall i :: 0 <= i < |r| ==> r[i] in AdminTable.AgeRanges(UseTemplates.FilteredTemplates(ts, f))
    ensures forall i, j :: 0 <= i < j < |r| ==>
      var as_ := AdminTable.AgeRanges(UseTemplates.FilteredTemplates(ts, f));
      Seqs.FirstIndex(as_, r[i]) < Seqs.FirstIndex(as_, r[j])
  {
    AdminTable.UniqueAgeRanges(UseTemplates.FilteredTemplates(ts, f))
  }

  /** Every category offered belongs to a template that passes the current filters. */
  lemma CategoryOptionsMatch(ts: seq<Template>, f: Filters, c: string)
    requires c in CategoryOptions(ts, f)
    ensures exists i :: 0 <= i < |ts| && ts[i].category == c && UseTemplates.Matches(f, ts[i])
  {
    var fs := UseTemplates.FilteredTemplates(ts, f);
    var k :| 0 <= k < |fs| && fs[k].category == c;
    assert fs[k] in ts by {
      SubsequenceMember(fs, ts, k);
    }
    var i :| 0 <= i < |ts| && ts[i] == fs[k];
  }

  /** An element of a subsequence is an element of the whole. */
  lemma {:induction false} SubsequenceMember<T>(r: seq<T>, s: seq<T>, k: nat)
    requires Seqs.IsSubsequence(r, s) && k < |r|
    ensures r[k] in s
    decreases |s|
  {
    assert s != [];
    if r[0] == s[0] {
      if k > 0 {
        SubsequenceMember(r[1..], s[1..], k - 1);
      }
    } else {
      SubsequenceMember(r, s[1..], k);
    }
  }

  /** `filters.search || filters.status || filters.category || filters.ageRange`. */
  predicate AnyFilterSet(f: Filters) {
    Truthy(f.search) || f.status.Some? || Truthy(f.category) || Truthy(f.ageRange)
  }

  const NoMatchMessage := "Aucun template ne correspond aux filtres sélectionnés."
  const NoTemplateMessage := "Aucun template disponible."

  /** The text shown in place of an empty list. */
  function EmptyMessage(f: Filters): (m: string)
    ensures m == NoMatchMessage <==> AnyFilterSet(f)
    ensures m == NoTemplateMessage <==> !AnyFilterSet(f)
  {
    if AnyFilterSet(f) then NoMatchMessage else NoTemplateMessage
  }

  /**
   * With no filter in force every template is listed, so the list is empty
   * exactly when there is no template at all.
   */
  lemma NoFilterEmptyMeansNone(ts: seq<Template>, f: Filters)
    requires !AnyFilterSet(f)
    ensures UseTemplates.FilteredTemplates(ts, f) == ts
    ensures UseTemplates.FilteredTemplates(ts, f) == [] <==> ts == []
  {
    Seqs.FilterAll(ts, t => UseTemplates.Matches(f, t));
  }

  /** The page's own state, beside the list hook it uses. */
  class ListPage {
    const store: UseTemplates.TemplatesStore
    var deleteModalOpen: bool
    var templateToDelete: Option<Template>
    var deleteLoading: bool

    constructor (store: UseTemplates.TemplatesStore)
      ensures this.store == store
      ensures !deleteModalOpen && templateToDelete == None && !deleteLoading
    {
      this.store := store;
      deleteModalOpen := false;
      templateToDelete := None;
      deleteLoading := false;
    }

    /** A filter control's `onChange`: the hook's filters are replaced. */
    method ChangeFilters(f: Filters)
      modifies store
      ensures store.filters == f && store.templates == old(store.templates)
      ensures store.loading == old(store.loading) && store.error == old(store.error)
    {
      store.SetFilters(f);
    }

    /** `handleDeleteClick`: remember the template and open the confirmation. */
    method HandleDeleteClick(t: Template)
      modifies this
      ensures templateToDelete == Some(t) && deleteModalOpen && deleteLoading == old(deleteLoading)
    {
      templateToDelete := Some(t);
      deleteModalOpen := true;
    }

    /**
     * `handleDeleteConfirm`: without a remembered template nothing happens;
     * otherwise the hook deletes it, and on success the modal closes and the
     * selection is cleared, while a failure leaves both as they were and the
     * hook's error holds the deletion message, which the page shows in place
     * of the list. The loading flag is down afterwards in every case.
     */
    method HandleDeleteConfirm(outcome: Response<()>)
      modifies this, store
      ensures old(templateToDelete).None? ==> deleteModalOpen == old(deleteModalOpen)
      ensures old(templateToDelete).None? ==> templateToDelete == None
      ensures old(templateToDelete).None? ==> deleteLoading == old(deleteLoading)
      ensures old(templateToDelete).None? ==> store.templates == old(store.templates)
      ensures old(templateToDelete).None? ==> store.error == old(store.error)
      ensures old(templateToDelete).Some? ==> !deleteLoading
      ensures old(templateToDelete).Some? ==>
        store.templates == UseTemplates.WithoutId(old(store.templates), old(templateToDelete).value.id)
      ensures old(templateToDelete).Some? && outcome.Ok? ==> !deleteModalOpen && templateToDelete == None
      ensures old(templateToDelete).Some? && outcome.Failed? ==>
        deleteModalOpen == old(deleteModalOpen) && templateToDelete == old(templateToDelete)
      ensures old(templateToDelete).Some? && outcome.Ok? ==> store.error == old(store.error)
      ensures old(templateToDelete).Some? && outcome.Failed? ==>
        store.error == Some(ErrorText(outcome.message, "Erreur lors de la suppression du template"))
      ensures store.filters == old(store.filters) && store.loading == old(store.loading)
    {
      if templateToDelete.None? {
        return;
      }
      deleteLoading := true;
      var failed := store.DeleteTemplate(templateToDelete.value.id, outcome);
      if !failed {
        deleteModalOpen := false;
        templateToDelete := None;
      }
      deleteLoading := false;
    }
  }
}
