/**
 * The zone list panel (`ElementSidebar`): the "add a zone" form, its draft,
 * and the request it hands to `onAddZone`.
 */
module ElementSidebar {
  import opened Wrappers
  import opened Schema
  import opened Text

  /** The form's draft of a new zone. */
  datatype ZoneDraft = ZoneDraft(name: string, kind: ZoneType, variables: seq<string>,
                                 content: string, position: Position, size: Size)

  /** The draft the form starts from and goes back to: a text zone at (0, 0), 100 by 50. */
  const DefaultDraft := ZoneDraft("", TextZone, [], "", Position(0.0, 0.0), Size(100.0, 50.0))

  /** A zone without its id (`Omit<Zone, 'id'>`), as `onAddZone` receives it. */
  datatype ZoneRequest = ZoneRequest(templateId: string, name: string, kind: ZoneType,
                                     variables: seq<string>, content: string,
                                     position: Position, size: Size)

  /** `{ ...newZone, templateId }`. */
  function RequestOf(d: ZoneDraft, templateId: string): (r: ZoneRequest)
    ensures r.templateId == templateId
    ensures r.name == d.name && r.kind == d.kind && r.variables == d.variables
    ensures r.content == d.content && r.position == d.position && r.size == d.size
  {
    ZoneRequest(templateId, d.name, d.kind, d.variables, d.content, d.position, d.size)
  }

  /** The request a click on "add" sends: only a draft whose name is not blank is sent. */
  function Submission(d: ZoneDraft, templateId: string): (r: Option<ZoneRequest>)
    ensures r.Some? <==> !AllWhiteSpace(d.name)
    ensures r.Some? ==> r.value == RequestOf(d, templateId)
  {
    if Trim(d.name) != [] then Some(RequestOf(d, templateId)) else None
  }

  /** The request built from a draft gives the draft back, once its template is dropped. */
  lemma RequestKeepsDraft(d: ZoneDraft, templateId: string)
    ensures var r := RequestOf(d, templateId);
      ZoneDraft(r.name, r.kind, r.variables, r.content, r.position, r.size) == d
  {
  }

  class Panel {
    const templateId: string
    var isAddingZone: bool
    var newZone: ZoneDraft

    constructor (templateId: string)
      ensures this.templateId == templateId && !isAddingZone && newZone == DefaultDraft
    {
      this.templateId := templateId;
      isAddingZone := false;
      newZone := DefaultDraft;
    }

    /** The "+" button opens the form. */
    method Open()
      modifies this
      ensures isAddingZone && newZone == old(newZone)
    {
      isAddingZone := true;
    }

    /** The name input. */
    method SetName(v: string)
      modifies this
      ensures newZone == old(newZone).(name := v) && isAddingZone == old(isAddingZone)
    {
      newZone := newZone.(name := v);
    }

    /** The type drop-down. */
    method SetKind(k: ZoneType)
      modifies this
      ensures newZone == old(newZone).(kind := k) && isAddingZone == old(isAddingZone)
    {
      newZone := newZone.(kind := k);
    }

    /** The content input. */
    method SetContent(v: string)
      modifies this
      ensures newZone == old(newZone).(content := v) && isAddingZone == old(isAddingZone)
    {
      newZone := newZone.(content := v);
    }

    /**
     * `handleAddZone`: with a name that is not blank after trimming, the draft
     * and the panel's template id go to `onAddZone` (the returned request),
     * and the form is reset and closed; with a blank name nothing changes.
     */
    method HandleAddZone() returns (sent: Option<ZoneRequest>)
      modifies this
      ensures sent == Submission(old(newZone), templateId)
      ensures sent.Some? ==> newZone == DefaultDraft && !isAddingZone
      ensures sent.None? ==> newZone == old(newZone) && isAddingZone == old(isAddingZone)
    {
      if Trim(newZone.name) != [] {
        sent := Some(RequestOf(newZone, templateId));
        newZone := DefaultDraft;
        isAddingZone := false;
      } else {
        sent := None;
      }
    }

    /** `handleCancelAdd`: the form is reset and closed. */
    method HandleCancelAdd()
      modifies this
      ensures newZone == DefaultDraft && !isAddingZone
    {
      newZone := DefaultDraft;
      isAddingZone := false;
    }
  }
}
