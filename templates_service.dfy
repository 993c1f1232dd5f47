/**
 * The server's template store (`TemplatesService`): the template collection
 * as a map from document id to record, with the ids in insertion order (the
 * collection's natural order). Ids of new documents and the clock are
 * parameters.
 */
module TemplatesService {
  import opened Wrappers
  import opened Schema
  import opened Nest
  import Seqs

  /** A stored template; a field the creation request left out is `None`. */
  datatype Record = Record(
    title: string,
    description: Option<string>,
    category: string,
    ageRange: string,
    pdfPath: Option<string>,
    variables: seq<Variable>,
    elements: seq<Element>,
    status: Status,
    popularity: int,
    createdBy: string,
    createdAt: int,
    updatedAt: int
  )

  /** The creation request body. */
  datatype CreateDto = CreateDto(title: string, description: Option<string>, category: string,
                                 ageRange: string, variables: seq<Variable>, elements: seq<Element>)

  /** The update request body; every field is optional. */
  datatype UpdateDto = UpdateDto(title: Option<string>, description: Option<string>,
                                 category: Option<string>, ageRange: Option<string>,
                                 variables: Option<seq<Variable>>, elements: Option<seq<Element>>)

  const EmptyUpdate := UpdateDto(None, None, None, None, None, None)

  function TemplateNotFound(id: string): string {
    "Template with ID " + id + " not found"
  }

  /**
   * The document `create` saves: the request's fields, the uploaded PDF's
   * path and the creating user, with the schema defaults (draft, popularity 0)
   * and both timestamps at `now`.
   */
  function NewRecord(dto: CreateDto, userId: string, pdfPath: Option<string>, now: int): (r: Record)
    ensures r.title == dto.title && r.description == dto.description && r.category == dto.category
    ensures r.ageRange == dto.ageRange && r.variables == dto.variables && r.elements == dto.elements
    ensures r.pdfPath == pdfPath && r.createdBy == userId
    ensures r.status == Draft && r.popularity == 0 && r.createdAt == now && r.updatedAt == now
  {
    Record(dto.title, dto.description, dto.category, dto.ageRange, pdfPath, dto.variables,
           dto.elements, Draft, 0, userId, now, now)
  }

  /** `findByIdAndUpdate(id, dto, {new: true})`: the supplied fields replaced, `updatedAt` refreshed. */
  function ApplyUpdate(r: Record, dto: UpdateDto, now: int): (u: Record)
    ensures u.title == dto.title.GetOr(r.title)
    ensures u.description == (if dto.description.Some? then dto.description else r.description)
    ensures u.category == dto.category.GetOr(r.category) && u.ageRange == dto.ageRange.GetOr(r.ageRange)
    ensures u.variables == dto.variables.GetOr(r.variables) && u.elements == dto.elements.GetOr(r.elements)
    ensures u.pdfPath == r.pdfPath && u.status == r.status && u.popularity == r.popularity
    ensures u.createdBy == r.createdBy && u.createdAt == r.createdAt && u.updatedAt == now
  {
    r.(title := dto.title.GetOr(r.title),
       description := if dto.description.Some? then dto.description else r.description,
       category := dto.category.GetOr(r.category), ageRange := dto.ageRange.GetOr(r.ageRange),
       variables := dto.variables.GetOr(r.variables), elements := dto.elements.GetOr(r.elements),
       updatedAt := now)
  }

  /** Applying the same update twice is applying it once. */
  lemma ApplyUpdateIdempotent(r: Record, dto: UpdateDto, now: int)
    ensures ApplyUpdate(ApplyUpdate(r, dto, now), dto, now) == ApplyUpdate(r, dto, now)
  {
  }

  /** An update with no field only refreshes `updatedAt`. */
  lemma EmptyUpdateTouches(r: Record, now: int)
    ensures ApplyUpdate(r, EmptyUpdate, now) == r.(updatedAt := now)
  {
  }

  /** `findByIdAndUpdate(id, {status}, {new: true})`. */
  function WithStatus(r: Record, s: Status, now: int): (u: Record)
    ensures u.status == s && u.updatedAt == now
    ensures u.(status := r.status, updatedAt := r.updatedAt) == r
  {
    r.(status := s, updatedAt := now)
  }

  /** Setting a status and then the old one back leaves only the refreshed `updatedAt`. */
  lemma StatusBackRestores(r: Record, s: Status, now: int)
    ensures WithStatus(WithStatus(r, s, now), r.status, now) == r.(updatedAt := now)
  {
  }

  /** The numeric fields `findPopular` can sort on. */
  datatype SortField = Popularity | CreatedAt | UpdatedAt

  function SortKey(field: SortField, r: Record): int {
    match field
    case Popularity => r.popularity
    case CreatedAt => r.createdAt
    case UpdatedAt => r.updatedAt
  }

  /** How many documents a query with `.limit(limit)` returns out of `n`: all of them for 0, at most `|limit|` otherwise. */
  function LimitCount(limit: int, n: nat): (k: nat)
    ensures k <= n
    ensures limit == 0 ==> k == n
    ensures limit != 0 ==> k <= if limit < 0 then -limit else limit
    ensures limit != 0 && n >= (if limit < 0 then -limit else limit) ==> k == if limit < 0 then -limit else limit
  {
    var m := if limit < 0 then -limit else limit;
    if limit == 0 || n < m then n else m
  }

  /** The documents whose status is spelled `status`. */
  function WithStatusName(all: seq<Record>, status: string): (r: seq<Record>)
    ensures forall i :: 0 <= i < |r| ==> r[i].status.Name() == status
    ensures forall i :: 0 <= i < |all| && all[i].status.Name() == status ==> all[i] in r
    ensures Seqs.IsSubsequence(r, all)
    ensures |r| == Seqs.CountIf(all, (t: Record) => t.status.Name() == status)
  {
    Seqs.Filter(all, (t: Record) => t.status.Name() == status)
  }

  /**
   * `findPopular(limit, status, sort)`: the documents with that status, by
   * decreasing sort field, the first `limit` of them; no omitted document of
   * that status has a larger sort field than any returned one.
   */
  function FindPopular(all: seq<Record>, limit: int, status: string, field: SortField): (r: seq<Record>)
    ensures forall i :: 0 <= i < |r| ==> r[i].status.Name() == status
    ensures Seqs.SortedDescBy(r, t => SortKey(field, t))
    ensures |r| == LimitCount(limit, |WithStatusName(all, status)|)
    ensures multiset(r) <= multiset(WithStatusName(all, status))
    ensures forall x :: x in multiset(WithStatusName(all, status)) - multiset(r) ==>
      forall j :: 0 <= j < |r| ==> SortKey(field, x) <= SortKey(field, r[j])
  {
    var matching := WithStatusName(all, status);
    var key := (t: Record) => SortKey(field, t);
    var sorted := Seqs.SortDescBy(matching, key);
    var k := LimitCount(limit, |matching|);
    Seqs.SortedPrefixTop(sorted, key, k);
    PrefixHasStatus(matching, sorted, status, k);
    sorted[..k]
  }

  /** A prefix of a reordering of documents with one status has that status. */
  lemma PrefixHasStatus(matching: seq<Record>, sorted: seq<Record>, status: string, k: nat)
    requires forall i :: 0 <= i < |matching| ==> matching[i].status.Name() == status
    requires multiset(sorted) == multiset(matching) && k <= |sorted|
    ensures forall i :: 0 <= i < k ==> sorted[..k][i].status.Name() == status
  {
    forall i | 0 <= i < k ensures sorted[..k][i].status.Name() == status {
      assert sorted[i] in multiset(matching);
      var m :| 0 <= m < |matching| && matching[m] == sorted[i];
    }
  }

  class Store {
    var ids: seq<string>
    var records: map<string, Record>

    /** The ids list every stored document once. */
    predicate Valid()
      reads this
    {
      Seqs.Distinct(ids) && (forall id :: id in records ==> id in ids)
      && (forall i :: 0 <= i < |ids| ==> ids[i] in records)
    }

    constructor ()
      ensures ids == [] && records == map[] && Valid()
    {
      ids := [];
      records := map[];
    }

    /** `findAll`: every document, in natural order. */
    function FindAll(): (r: seq<Record>)
      requires Valid()
      reads this
      ensures |r| == |ids|
      ensures forall i :: 0 <= i < |ids| ==> r[i] == records[ids[i]]
    {
      var ks, rs := ids, records;
      seq(|ks|, i requires 0 <= i < |ks| => rs[ks[i]])
    }

    /** `findOne(id)`: the stored document, or NotFound. */
    function FindOne(id: string): (r: Result<Record>)
      reads this
      ensures r.Success? <==> id in records
      ensures r.Success? ==> r.value == records[id]
      ensures !r.Failure?
      ensures r.NotFound? ==> r.message == TemplateNotFound(id)
    {
      if id in records then Success(records[id]) else NotFound(TemplateNotFound(id))
    }

    /** `create`: the new document is stored under a fresh id and returned. */
    method Create(dto: CreateDto, userId: string, pdfPath: Option<string>, id: string, now: int)
      returns (r: Record)
      requires Valid() && id !in records
      modifies this
      ensures Valid()
      ensures r == NewRecord(dto, userId, pdfPath, now)
      ensures records == old(records)[id := r] && ids == old(ids) + [id]
      ensures FindOne(id) == Success(r)
    {
      r := NewRecord(dto, userId, pdfPath, now);
      assert id !in ids;
      records := records[id := r];
      ids := ids + [id];
    }

    /** `update(id, dto)`: NotFound for a missing id; otherwise the updated document. */
    method Update(id: string, dto: UpdateDto, now: int) returns (r: Result<Record>)
      requires Valid()
      modifies this
      ensures Valid() && ids == old(ids)
      ensures id !in old(records) ==> r == NotFound(TemplateNotFound(id)) && records == old(records)
      ensures id in old(records) ==>
        records == old(records)[id := ApplyUpdate(old(records)[id], dto, now)] && r == Success(records[id])
    {
      if id !in records {
        return NotFound(TemplateNotFound(id));
      }
      records := records[id := ApplyUpdate(records[id], dto, now)];
      r := Success(records[id]);
    }

    /** `updateStatus(id, status)`: only that document's status (and `updatedAt`) change. */
    method UpdateStatus(id: string, s: Status, now: int) returns (r: Result<Record>)
      requires Valid()
      modifies this
      ensures Valid() && ids == old(ids)
      ensures id !in old(records) ==> r == NotFound(TemplateNotFound(id)) && records == old(records)
      ensures id in old(records) ==>
        records == old(records)[id := WithStatus(old(records)[id], s, now)] && r == Success(records[id])
      ensures forall other :: other != id && other in old(records) ==> other in records && records[other] == old(records)[other]
    {
      if id !in records {
        return NotFound(TemplateNotFound(id));
      }
      records := records[id := WithStatus(records[id], s, now)];
      r := Success(records[id]);
    }

    /** `remove(id)`: NotFound for a missing id; otherwise the document is gone. */
    method Remove(id: string) returns (r: Result<()>)
      requires Valid()
      modifies this
      ensures Valid()
      ensures id !in old(records) ==> r == NotFound(TemplateNotFound(id)) && records == old(records) && ids == old(ids)
      ensures id in old(records) ==> r == Success(()) && records == old(records) - {id}
      ensures id in old(records) ==> ids == Seqs.RemoveValue(old(ids), id)
      ensures FindOne(id) == NotFound(TemplateNotFound(id))
    {
      if id !in records {
        return NotFound(TemplateNotFound(id));
      }
      records := records - {id};
      ids := Seqs.RemoveValue(ids, id);
      r := Success(());
    }
  }
}
