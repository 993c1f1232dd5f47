/** The draft/public switch of a template card (`TemplateStatusToggle`). */
module StatusToggle {
  import opened Wrappers
  import opened Schema
  import opened Http
  import UseTemplates

  /** `currentStatus === 'draft' ? 'public' : 'draft'`. */
  function NewStatus(current: Status): (r: Status)
    ensures current == Draft ==> r == Public
    ensures current == Public ==> r == Draft
  {
    UseTemplates.Flip(current)
  }

  /** Toggling twice gives the original status back. */
  lemma ToggleTwice(s: Status)
    ensures NewStatus(NewStatus(s)) == s
  {
  }

  class Toggle {
    var isUpdating: bool
    var error: Option<string>

    constructor ()
      ensures !isUpdating && error == None
    {
      isUpdating := false;
      error := None;
    }

    /**
     * `handleToggle`: the other status is requested; on success the parent is
     * told the new status (the returned value), on failure the error is set
     * and the parent is not told. The busy flag is down afterwards.
     */
    method HandleToggle(current: Status, outcome: Response<()>) returns (notified: Option<Status>)
      modifies this
      ensures outcome.Ok? ==> notified == Some(NewStatus(current)) && error == None
      ensures outcome.Failed? ==> notified == None
      ensures outcome.Failed? ==>
        error == Some(ErrorText(outcome.message, "Erreur lors de la mise à jour du statut"))
      ensures !isUpdating
    {
      var requested := NewStatus(current);
      isUpdating := true;
      error := None;
      match outcome {
        case Ok(_) => notified := Some(requested);
        case Failed(message) =>
          notified := None;
          error := Some(ErrorText(message, "Erreur lors de la mise à jour du statut"));
      }
      isUpdating := false;
    }
  }
}
