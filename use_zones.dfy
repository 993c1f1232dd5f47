/**
 * The zone list hook (`useZones`): the zones of the template being edited,
 * fetched, created, updated and deleted through the server.
 */
module UseZones {
  import opened Wrappers
  import opened Schema
  import opened Http
  import Seqs

  /** `prev.map(zone => zone._id === id ? updated : zone)`. */
  function ReplaceZone(zs: seq<Zone>, id: string, updated: Zone): (r: seq<Zone>)
    ensures |r| == |zs|
    ensures forall i :: 0 <= i < |zs| ==> r[i] == if zs[i].id == id then updated else zs[i]
  {
    Seqs.ReplaceWhere(zs, (z: Zone) => z.id == id, updated)
  }

  /** `prev.filter(zone => zone._id !== id)`. */
  function WithoutZone(zs: seq<Zone>, id: string): (r: seq<Zone>)
    ensures Seqs.IsSubsequence(r, zs)
    ensures |r| == Seqs.CountIf(zs, (z: Zone) => z.id != id)
    ensures forall i :: 0 <= i < |r| ==> r[i].id != id
    ensures forall i :: 0 <= i < |zs| && zs[i].id != id ==> zs[i] in r
  {
    Seqs.Filter(zs, (z: Zone) => z.id != id)
  }

  class ZonesStore {
    var zones: seq<Zone>
    var loading: bool
    var error: Option<string>

    constructor ()
      ensures zones == [] && !loading && error == None
    {
      zones := [];
      loading := false;
      error := None;
    }

    /**
     * `fetchZones(templateId)`: the response replaces the zone list; a failure
     * keeps the list, sets the error and is passed on.
     */
    method FetchZones(response: Response<seq<Zone>>) returns (rethrown: bool)
      modifies this
      ensures !loading
      ensures response.Ok? ==> zones == response.data && error == None && !rethrown
      ensures response.Failed? ==> zones == old(zones) && rethrown
      ensures response.Failed? ==>
        error == Some(ErrorText(response.message, "Erreur lors du chargement des zones"))
    {
      loading := true;
      error := None;
      rethrown := false;
      match response {
        case Ok(zs) => zones := zs;
        case Failed(message) =>
          error := Some(ErrorText(message, "Erreur lors du chargement des zones"));
          rethrown := true;
      }
      loading := false;
    }

    /** `createZone(data)`: the created zone is appended and returned (None: the call threw). */
    method CreateZone(response: Response<Zone>) returns (created: Option<Zone>)
      modifies this
      ensures response.Ok? ==> zones == old(zones) + [response.data] && created == Some(response.data)
      ensures response.Ok? ==> error == None
      ensures response.Failed? ==> zones == old(zones) && created == None
      ensures response.Failed? ==>
        error == Some(ErrorText(response.message, "Erreur lors de la création de la zone"))
      ensures loading == old(loading)
    {
      error := None;
      match response {
        case Ok(z) =>
          zones := zones + [z];
          created := Some(z);
        case Failed(message) =>
          error := Some(ErrorText(message, "Erreur lors de la création de la zone"));
          created := None;
      }
    }

    /** `updateZone(id, data)`: the zones with that id are replaced by the answer, which is returned. */
    method UpdateZone(id: string, response: Response<Zone>) returns (updated: Option<Zone>)
      modifies this
      ensures response.Ok? ==> zones == ReplaceZone(old(zones), id, response.data)
      ensures response.Ok? ==> updated == Some(response.data) && error == None
      ensures response.Failed? ==> zones == old(zones) && updated == None
      ensures response.Failed? ==>
        error == Some(ErrorText(response.message, "Erreur lors de la mise à jour de la zone"))
      ensures loading == old(loading)
    {
      error := None;
      match response {
        case Ok(z) =>
          zones := ReplaceZone(zones, id, z);
          updated := Some(z);
        case Failed(message) =>
          error := Some(ErrorText(message, "Erreur lors de la mise à jour de la zone"));
          updated := None;
      }
    }

    /**
     * `deleteZone(id)`: the zone is dropped before the request and stays
     * dropped when it fails; a failure sets the error and is passed on.
     */
    method DeleteZone(id: string, outcome: Response<()>) returns (rethrown: bool)
      modifies this
      ensures zones == WithoutZone(old(zones), id)
      ensures outcome.Ok? ==> error == None && !rethrown
      ensures outcome.Failed? ==> rethrown
      ensures outcome.Failed? ==>
        error == Some(ErrorText(outcome.message, "Erreur lors de la suppression de la zone"))
      ensures loading == old(loading)
    {
      error := None;
      zones := WithoutZone(zones, id);
      rethrown := false;
      if outcome.Failed? {
        error := Some(ErrorText(outcome.message, "Erreur lors de la suppression de la zone"));
        rethrown := true;
      }
    }

    /** `clearError`. */
    method ClearError()
      modifies this
      ensures error == None && zones == old(zones) && loading == old(loading)
    {
      error := None;
    }
  }
}
