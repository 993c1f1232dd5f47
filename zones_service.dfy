/**
 * The server's zone store (`ZonesService`): zones keyed by document id, in
 * insertion order, each linked to a template of the template store. Creating
 * zones and listing a template's zones first look the template up.
 */
module ZonesService {
  import opened Wrappers
  import opened Schema
  import opened Nest
  import Seqs
  import TemplatesService

  /** The creation request body. */
  datatype CreateZoneDto = CreateZoneDto(templateId: string, name: string, kind: ZoneType,
                                         variables: seq<string>, content: string,
                                         position: Position, size: Size)

  function ZoneNotFound(id: string): string {
    "Zone with ID " + id + " not found"
  }

  /** The document `create` saves under `id`. */
  function ZoneOf(dto: CreateZoneDto, id: string): (z: Zone)
    ensures z.id == id && z.templateId == dto.templateId && z.name == dto.name && z.kind == dto.kind
    ensures z.variables == dto.variables && z.content == dto.content
    ensures z.position == dto.position && z.size == dto.size
  {
    Zone(id, dto.templateId, dto.name, dto.kind, dto.variables, dto.content, dto.position, dto.size)
  }

  /** The zones of one template, in order. */
  function OfTemplate(zs: seq<Zone>, templateId: string): (r: seq<Zone>)
    ensures forall i :: 0 <= i < |r| ==> r[i].templateId == templateId
    ensures forall i :: 0 <= i < |zs| && zs[i].templateId == templateId ==> zs[i] in r
    ensures Seqs.IsSubsequence(r, zs)
    ensures |r| == Seqs.CountIf(zs, (z: Zone) => z.templateId == templateId)
  {
    Seqs.Filter(zs, (z: Zone) => z.templateId == templateId)
  }

  /** Appending a zone of another template leaves a template's zones as they were. */
  lemma {:induction false} OfTemplateAppendOther(zs: seq<Zone>, z: Zone, templateId: string)
    requires z.templateId != templateId
    ensures OfTemplate(zs + [z], templateId) == OfTemplate(zs, templateId)
  {
    if zs == [] {
      assert [z][1..] == [];
    } else {
      assert (zs + [z])[1..] == zs[1..] + [z];
      OfTemplateAppendOther(zs[1..], z, templateId);
    }
  }

  /** Appending a zone of a template puts it last among that template's zones. */
  lemma {:induction false} OfTemplateAppendSame(zs: seq<Zone>, z: Zone)
    ensures OfTemplate(zs + [z], z.templateId) == OfTemplate(zs, z.templateId) + [z]
  {
    if zs == [] {
      assert [z][1..] == [];
    } else {
      assert (zs + [z])[1..] == zs[1..] + [z];
      OfTemplateAppendSame(zs[1..], z);
    }
  }

  /** The zones stored under `ks`, in the order of `ks`. */
  function ZoneList(ks: seq<string>, zs: map<string, Zone>): (r: seq<Zone>)
    requires forall i :: 0 <= i < |ks| ==> ks[i] in zs
    ensures |r| == |ks| && forall i :: 0 <= i < |ks| ==> r[i] == zs[ks[i]]
  {
    seq(|ks|, i requires 0 <= i < |ks| => zs[ks[i]])
  }

  /** The ids list every stored zone once, and each zone carries its own id. */
  predicate Stored(ks: seq<string>, zs: map<string, Zone>) {
    Seqs.Distinct(ks) && (forall id :: id in zs ==> id in ks && zs[id].id == id)
    && (forall i :: 0 <= i < |ks| ==> ks[i] in zs)
  }

  /** Storing a zone under a new id and appending the id appends the zone to the list. */
  lemma ZoneListAppend(ks: seq<string>, zs: map<string, Zone>, id: string, z: Zone)
    requires forall i :: 0 <= i < |ks| ==> ks[i] in zs
    requires id !in ks
    ensures ZoneList(ks + [id], zs[id := z]) == ZoneList(ks, zs) + [z]
  {
    var l, r := ZoneList(ks + [id], zs[id := z]), ZoneList(ks, zs) + [z];
    forall i | 0 <= i < |l| ensures l[i] == r[i] {
      if i < |ks| { assert (ks + [id])[i] == ks[i] != id; }
    }
  }

  /**
   * Storing a zone under a new id keeps the store consistent, puts the zone
   * last among its template's zones and leaves every other template's zones alone.
   */
  lemma StoreNewZone(ks: seq<string>, zs: map<string, Zone>, id: string, z: Zone)
    requires Stored(ks, zs) && id !in zs && z.id == id
    ensures Stored(ks + [id], zs[id := z])
    ensures OfTemplate(ZoneList(ks + [id], zs[id := z]), z.templateId) == OfTemplate(ZoneList(ks, zs), z.templateId) + [z]
    ensures forall t :: t != z.templateId ==>
      OfTemplate(ZoneList(ks + [id], zs[id := z]), t) == OfTemplate(ZoneList(ks, zs), t)
  {
    var before := ZoneList(ks, zs);
    ZoneListAppend(ks, zs, id, z);
    OfTemplateAppendSame(before, z);
    forall t | t != z.templateId
      ensures OfTemplate(ZoneList(ks + [id], zs[id := z]), t) == OfTemplate(before, t)
    {
      OfTemplateAppendOther(before, z, t);
    }
    Seqs.DistinctAppend(ks, id);
  }

  class Service {
    const templates: TemplatesService.Store
    var ids: seq<string>
    var zones: map<string, Zone>

    /** The ids list every stored zone once, and each zone carries its own id. */
    predicate Valid()
      reads this
    {
      Stored(ids, zones)
    }

    constructor (templates: TemplatesService.Store)
      ensures this.templates == templates && ids == [] && zones == map[] && Valid()
    {
      this.templates := templates;
      ids := [];
      zones := map[];
    }

    /** Every zone, in natural order. */
    function All(): (r: seq<Zone>)
      requires Valid()
      reads this
      ensures |r| == |ids|
      ensures forall i :: 0 <= i < |ids| ==> r[i] == zones[ids[i]]
    {
      ZoneList(ids, zones)
    }

    /**
     * `findByTemplateId(templateId)`: NotFound when no such template is
     * stored; otherwise exactly the zones linked to it, in order.
     */
    function FindByTemplateId(templateId: string): (r: Result<seq<Zone>>)
      requires Valid()
      reads this, templates
      ensures r.Success? <==> templateId in templates.records
      ensures r.NotFound? ==> r.message == TemplatesService.TemplateNotFound(templateId)
      ensures r.Success? ==> r.value == OfTemplate(All(), templateId)
      ensures !r.Failure?
    {
      if templateId !in templates.records then NotFound(TemplatesService.TemplateNotFound(templateId))
      else Success(OfTemplate(All(), templateId))
    }

    /**
     * `create(dto)`: NotFound, storing nothing, when the template is not
     * stored; otherwise the zone is stored under a fresh id, linked to that
     * template, and listed last among its zones.
     */
    method Create(dto: CreateZoneDto, id: string) returns (r: Result<Zone>)
      requires Valid() && id !in zones
      modifies this
      ensures Valid()
      ensures dto.templateId !in templates.records ==>
        r == NotFound(TemplatesService.TemplateNotFound(dto.templateId)) && zones == old(zones) && ids == old(ids)
      ensures dto.templateId in templates.records ==>
        r == Success(ZoneOf(dto, id)) && zones == old(zones)[id := ZoneOf(dto, id)] && ids == old(ids) + [id]
      ensures dto.templateId in templates.records ==>
        FindByTemplateId(dto.templateId) == Success(old(OfTemplate(All(), dto.templateId)) + [ZoneOf(dto, id)])
      ensures forall t :: t != dto.templateId ==> OfTemplate(All(), t) == old(OfTemplate(All(), t))
    {
      if dto.templateId !in templates.records {
        return NotFound(TemplatesService.TemplateNotFound(dto.templateId));
      }
      var z := ZoneOf(dto, id);
      StoreNewZone(ids, zones, id, z);
      zones := zones[id := z];
      ids := ids + [id];
      r := Success(z);
    }

    /** `update(id, dto)`: NotFound for a missing zone; otherwise the supplied fields replaced. */
    method Update(id: string, patch: ZonePatch) returns (r: Result<Zone>)
      requires Valid()
      modifies this
      ensures Valid() && ids == old(ids)
      ensures id !in old(zones) ==> r == NotFound(ZoneNotFound(id)) && zones == old(zones)
      ensures id in old(zones) ==>
        zones == old(zones)[id := ApplyZonePatch(old(zones)[id], patch)] && r == Success(zones[id])
    {
      if id !in zones {
        return NotFound(ZoneNotFound(id));
      }
      zones := zones[id := ApplyZonePatch(zones[id], patch)];
      r := Success(zones[id]);
    }

    /** `remove(id)`: NotFound for a missing zone; otherwise the zone is gone. */
    method Remove(id: string) returns (r: Result<()>)
      requires Valid()
      modifies this
      ensures Valid()
      ensures id !in old(zones) ==> r == NotFound(ZoneNotFound(id)) && zones == old(zones) && ids == old(ids)
      ensures id in old(zones) ==> r == Success(()) && zones == old(zones) - {id}
      ensures id in old(zones) ==> ids == Seqs.RemoveValue(old(ids), id)
    {
      if id !in zones {
        return NotFound(ZoneNotFound(id));
      }
      zones := zones - {id};
      ids := Seqs.RemoveValue(ids, id);
      r := Success(());
    }
  }
}
