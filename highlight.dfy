/**
 * The home page's highlighted templates (`TemplateHighlightSection`): the
 * public templates, newest first, at most four of them. Creation times are
 * the millisecond timestamps the source obtains with `new Date(...).getTime()`.
 */
module Highlight {
  import opened Wrappers
  import opened Schema
  import Seqs

  /** How many templates the section shows at most. */
  const HighlightCount: nat := 4

  function CreatedAt(t: Template): int {
    t.createdAt
  }

  /** The public templates, in their order. */
  function PublicOf(ts: seq<Template>): (r: seq<Template>)
    ensures forall i :: 0 <= i < |r| ==> r[i].status == Public
    ensures forall i :: 0 <= i < |ts| && ts[i].status == Public ==> ts[i] in r
    ensures Seqs.IsSubsequence(r, ts)
    ensures |r| == Seqs.CountIf(ts, (t: Template) => t.status == Public)
  {
    Seqs.Filter(ts, (t: Template) => t.status == Public)
  }

  /**
   * `highlightedTemplates`: filter the public templates, sort them by
   * creation time, newest first, and keep the first four.
   */
  function Highlighted(ts: seq<Template>): (r: seq<Template>)
    ensures |r| <= HighlightCount
    ensures |r| == if |PublicOf(ts)| < HighlightCount then |PublicOf(ts)| else HighlightCount
    ensures forall i :: 0 <= i < |r| ==> r[i].status == Public
    ensures Seqs.SortedDescBy(r, CreatedAt)
    ensures multiset(r) <= multiset(PublicOf(ts))
    ensures forall x :: x in multiset(PublicOf(ts)) - multiset(r) ==>
      forall j :: 0 <= j < |r| ==> x.createdAt <= r[j].createdAt
  {
    var pub := PublicOf(ts);
    var sorted := Seqs.SortDescBy(pub, CreatedAt);
    var k := if |pub| < HighlightCount then |pub| else HighlightCount;
    SortedPrefixFacts(pub, sorted, k);
    assert |sorted[..k]| == k;
    sorted[..k]
  }

  /** The first `k` of a newest-first ordering of public templates. */
  lemma SortedPrefixFacts(pub: seq<Template>, sorted: seq<Template>, k: nat)
    requires forall i :: 0 <= i < |pub| ==> pub[i].status == Public
    requires multiset(sorted) == multiset(pub) && Seqs.SortedDescBy(sorted, CreatedAt)
    requires k <= |sorted|
    ensures forall i :: 0 <= i < |sorted[..k]| ==> sorted[..k][i].status == Public
    ensures Seqs.SortedDescBy(sorted[..k], CreatedAt)
    ensures multiset(sorted[..k]) <= multiset(pub)
    ensures forall x :: x in multiset(pub) - multiset(sorted[..k]) ==>
      forall j :: 0 <= j < |sorted[..k]| ==> x.createdAt <= sorted[..k][j].createdAt
  {
    Seqs.SortedPrefixTop(sorted, CreatedAt, k);
    forall i | 0 <= i < k ensures sorted[..k][i].status == Public {
      assert sorted[..k][i] == sorted[i];
      assert sorted[i] in multiset(pub);
      var m :| 0 <= m < |pub| && pub[m] == sorted[i];
    }
    forall x, j | x in multiset(pub) - multiset(sorted[..k]) && 0 <= j < k
      ensures x.createdAt <= sorted[..k][j].createdAt
    {
      assert CreatedAt(x) <= CreatedAt(sorted[j]);
    }
  }

  /** Nothing is highlighted exactly when no template is public. */
  lemma HighlightedEmptyIff(ts: seq<Template>)
    ensures Highlighted(ts) == [] <==> forall i :: 0 <= i < |ts| ==> ts[i].status != Public
  {
    if Highlighted(ts) == [] {
      assert |PublicOf(ts)| == 0;
    } else {
      assert Highlighted(ts)[0] in multiset(PublicOf(ts));
      var i :| 0 <= i < |PublicOf(ts)| && PublicOf(ts)[i] == Highlighted(ts)[0];
      assert PublicOf(ts)[i] in ts;
    }
  }

  /** What the component renders. */
  datatype View = LoadingView | Hidden | Cards(shown: seq<Template>)

  /** The loading placeholder first; nothing on an error or an empty selection; otherwise the cards. */
  function Render(ts: seq<Template>, loading: bool, error: Option<string>): (v: View)
    ensures loading ==> v == LoadingView
    ensures !loading && (error.Some? || Highlighted(ts) == []) ==> v == Hidden
    ensures v.Cards? ==> v.shown == Highlighted(ts) && v.shown != [] && error.None?
  {
    if loading then LoadingView
    else if error.Some? || Highlighted(ts) == [] then Hidden
    else Cards(Highlighted(ts))
  }

  /** A loaded section without error is hidden exactly when no template is public. */
  lemma HiddenIffNoPublic(ts: seq<Template>)
    ensures Render(ts, false, None) == Hidden <==> forall i :: 0 <= i < |ts| ==> ts[i].status != Public
  {
    HighlightedEmptyIff(ts);
  }
}
