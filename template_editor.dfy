/**
 * The template editor's state (`useTemplateEditor`): the template being
 * edited, the selected element, the drag in progress and the PDF page shown.
 *
 * Element objects have an identity in the source: `endDrag` looks the dragged
 * element up with `===`. The model gives every element object a reference
 * number; `refs[i]` is the reference of `template.elements[i]`, and a new
 * object (a spread copy, a freshly loaded list) gets a reference never used
 * before, drawn from `nextRef`. The ghost map `objects` records the
 * contents of every object created so far; objects are never changed in
 * place, so a reference always names the same contents.
 */
module TemplateEditor {
  import opened Wrappers
  import opened Schema
  import opened Http
  import Seqs

  /** An element object: its identity and its contents. */
  datatype Handle = Handle(ref: nat, element: Element)

  /** The selection: an index and the element found there (`undefined` when out of range). */
  datatype Selected = Selected(index: int, element: Option<Element>)

  datatype DragState = DragState(isDragging: bool, dragged: Option<Handle>, offset: Position)

  /** The drag state at rest: not dragging, nothing dragged, offset (0, 0). */
  const IdleDrag := DragState(false, None, Position(0.0, 0.0))

  /** The variable `addVariable` appends. */
  const NewVariable := Variable("", "string", Str(""))

  /** The element `addElement` appends: an empty text box at the origin, 100 by 50. */
  const NewElement := Element("text", "", Position(0.0, 0.0), Size(100.0, 50.0))

  /** The template fields the editor page edits with `updateTemplateField`. */
  datatype TemplateField = Title(title: string) | Description(description: string)
                         | Category(category: string) | AgeRange(ageRange: string)

  /** One field of a variable, with its new value. */
  datatype VariableField = VariableName(name: string) | VariableType(kind: string)
                         | VariableDefault(value: Value)

  /** One field of an element, with its new value. */
  datatype ElementField = ElementType(kind: string) | ElementContent(content: string)
                        | ElementPosition(position: Position) | ElementSize(size: Size)

  /** The body `saveTemplate` sends with its `PUT`. */
  datatype SaveBody = SaveBody(title: string, description: string, category: string,
                               ageRange: string, variables: seq<Variable>, elements: seq<Element>)

  /** `api.put(`/templates/${templateId}`, body)`: the template written and what is written to it. */
  datatype SaveRequest = SaveRequest(templateId: string, body: SaveBody)

  /** `{ ...t, [field]: value }`. */
  function SetTemplateField(t: Template, f: TemplateField): (r: Template)
    ensures r.title == (if f.Title? then f.title else t.title)
    ensures r.description == (if f.Description? then f.description else t.description)
    ensures r.category == (if f.Category? then f.category else t.category)
    ensures r.ageRange == (if f.AgeRange? then f.ageRange else t.ageRange)
    ensures r.(title := t.title, description := t.description, category := t.category,
               ageRange := t.ageRange) == t
  {
    match f
    case Title(v) => t.(title := v)
    case Description(v) => t.(description := v)
    case Category(v) => t.(category := v)
    case AgeRange(v) => t.(ageRange := v)
  }

  /** `{ ...v, [field]: value }`. */
  function SetVariableField(v: Variable, f: VariableField): (r: Variable)
    ensures r.name == (if f.VariableName? then f.name else v.name)
    ensures r.kind == (if f.VariableType? then f.kind else v.kind)
    ensures r.defaultValue == (if f.VariableDefault? then f.value else v.defaultValue)
  {
    match f
    case VariableName(x) => v.(name := x)
    case VariableType(x) => v.(kind := x)
    case VariableDefault(x) => v.(defaultValue := x)
  }

  /** `{ ...e, [field]: value }`. */
  function SetElementField(e: Element, f: ElementField): (r: Element)
    ensures r.kind == (if f.ElementType? then f.kind else e.kind)
    ensures r.content == (if f.ElementContent? then f.content else e.content)
    ensures r.position == (if f.ElementPosition? then f.position else e.position)
    ensures r.size == (if f.ElementSize? then f.size else e.size)
  {
    match f
    case ElementType(x) => e.(kind := x)
    case ElementContent(x) => e.(content := x)
    case ElementPosition(x) => e.(position := x)
    case ElementSize(x) => e.(size := x)
  }

  /** `s[i]`, `undefined` (None) outside the list. */
  function At<T>(s: seq<T>, i: int): (r: Option<T>)
    ensures r.Some? <==> 0 <= i < |s|
    ensures r.Some? ==> r.value == s[i]
  {
    if 0 <= i < |s| then Some(s[i]) else None
  }

  /**
   * `s.filter((_, j) => j !== i)`: the list without its item at `i`, the rest
   * in order; an index outside the list removes nothing.
   */
  function RemoveAt<T>(s: seq<T>, i: int): (r: seq<T>)
    ensures 0 <= i < |s| ==> |r| == |s| - 1
    ensures 0 <= i < |s| ==> forall j :: 0 <= j < |r| ==> r[j] == if j < i then s[j] else s[j + 1]
    ensures !(0 <= i < |s|) ==> r == s
  {
    if 0 <= i < |s| then s[..i] + s[i + 1..] else s
  }

  /** Removing one reference from a list of distinct references keeps them distinct. */
  lemma RemoveAtDistinct(s: seq<nat>, i: int)
    requires Seqs.Distinct(s)
    ensures Seqs.Distinct(RemoveAt(s, i))
    ensures forall j :: 0 <= j < |RemoveAt(s, i)| ==> RemoveAt(s, i)[j] in s
  {
    var r := RemoveAt(s, i);
    if 0 <= i < |s| {
      forall a, b | 0 <= a < b < |r| ensures r[a] != r[b] {
        var a' := if a < i then a else a + 1;
        var b' := if b < i then b else b + 1;
        assert r[a] == s[a'] && r[b] == s[b'];
      }
      forall j | 0 <= j < |r| ensures r[j] in s {
        assert r[j] == s[if j < i then j else j + 1];
      }
    }
  }

  /**
   * The selection after `removeElement(index)` on `elements`: cleared when the
   * removed element was selected, moved down by one (still naming the element
   * found at its old index) when a smaller index was removed, kept otherwise.
   */
  function SelectionAfterRemove(sel: Option<Selected>, index: int, elements: seq<Element>): (r: Option<Selected>)
    ensures sel.None? ==> r.None?
    ensures sel.Some? && sel.value.index == index ==> r.None?
    ensures sel.Some? && sel.value.index > index ==>
      r == Some(Selected(sel.value.index - 1, At(elements, sel.value.index)))
    ensures sel.Some? && sel.value.index < index ==> r == sel
  {
    match sel
    case None => None
    case Some(s) =>
      if s.index == index then None
      else if s.index > index then Some(Selected(s.index - 1, At(elements, s.index)))
      else sel
  }

  /**
   * Removing an element moves the ones after it one place down and leaves the
   * ones before it in place, so the adjusted selection names the same element
   * it named before the removal.
   */
  lemma RemoveAtKeepsSelectedElement(elements: seq<Element>, index: int, k: int)
    requires 0 <= index < |elements|
    ensures index < k ==> At(RemoveAt(elements, index), k - 1) == At(elements, k)
    ensures k < index ==> At(RemoveAt(elements, index), k) == At(elements, k)
  {
  }

  /** The first position of reference `r` in `refs` (`findIndex(el => el === dragged)`). */
  function FindRef(refs: seq<nat>, r: nat): (k: Option<nat>)
    ensures k.Some? ==> k.value < |refs| && refs[k.value] == r
    ensures k.Some? ==> forall j :: 0 <= j < k.value ==> refs[j] != r
    ensures k.None? <==> r !in refs
  {
    if refs == [] then None
    else if refs[0] == r then Some(0)
    else
      match FindRef(refs[1..], r)
      case None => None
      case Some(j) => Some(j + 1)
  }

  /** The offset `startDrag` records: the mouse point relative to the element's position. */
  function DragOffset(mouse: Position, at: Position): (r: Position)
    ensures at.x + r.x == mouse.x && at.y + r.y == mouse.y
  {
    Position(mouse.x - at.x, mouse.y - at.y)
  }

  /** The position `updateDrag` gives the dragged element: the mouse point minus the offset. */
  function DraggedPosition(mouse: Position, offset: Position): (r: Position)
    ensures r.x + offset.x == mouse.x && r.y + offset.y == mouse.y
  {
    Position(mouse.x - offset.x, mouse.y - offset.y)
  }

  /** Moving to the point where the drag started puts the element back where it was. */
  lemma DragRoundTrip(mouse: Position, at: Position)
    ensures DraggedPosition(mouse, DragOffset(mouse, at)) == at
  {
  }

  /** `Math.max(1, page - 1)`. */
  function PreviousPage(page: int): (r: int)
    ensures r >= 1
    ensures page > 1 ==> r == page - 1
    ensures page <= 1 ==> r == 1
  {
    if page - 1 > 1 then page - 1 else 1
  }

  /** `n` references never used before: `base` to `base + n - 1`. */
  function FreshRefs(base: nat, n: nat): (refs: seq<nat>)
    ensures |refs| == n && Seqs.Distinct(refs)
    ensures forall i :: 0 <= i < n ==> refs[i] == base + i
  {
    seq(n, i requires 0 <= i < n => base + i)
  }

  /** The objects once the elements `es` are created under the references from `base` on. */
  ghost function WithNewObjects(objects: map<nat, Element>, base: nat, es: seq<Element>)
    : (r: map<nat, Element>)
    ensures forall k :: k in r ==> k in objects || base <= k < base + |es|
    ensures forall k :: k in objects && k < base ==> k in r && r[k] == objects[k]
    ensures forall k :: base <= k < base + |es| ==> k in r && r[k] == es[k - base]
    decreases |es|
  {
    if es == [] then objects
    else WithNewObjects(objects[base := es[0]], base + 1, es[1..])
  }

  /**
   * `refs` and `objects` describe the element list `es`: one distinct
   * reference per element, naming an object with that element's contents,
   * and every reference created so far lies below `next`.
   */
  ghost predicate Tracks(es: seq<Element>, refs: seq<nat>, objects: map<nat, Element>, next: nat) {
    |refs| == |es| && Seqs.Distinct(refs)
    && (forall r :: r in objects ==> r < next)
    && (forall i :: 0 <= i < |refs| ==> refs[i] in objects && objects[refs[i]] == es[i])
  }

  /**
   * A freshly loaded list: its elements become new objects under fresh
   * references, and the objects created before stay as they were.
   */
  lemma LoadObjects(objects: map<nat, Element>, next: nat, es: seq<Element>)
    returns (objects': map<nat, Element>)
    requires forall r :: r in objects ==> r < next
    ensures Tracks(es, FreshRefs(next, |es|), objects', next + |es|)
    ensures forall k :: k in objects ==> k in objects' && objects'[k] == objects[k]
  {
    objects' := WithNewObjects(objects, next, es);
    var refs := FreshRefs(next, |es|);
    forall i | 0 <= i < |refs| ensures refs[i] in objects' && objects'[refs[i]] == es[i] {
      assert refs[i] == next + i;
      assert next + i in objects' && objects'[next + i] == es[i];
    }
    forall r | r in objects' ensures r < next + |es| {
      assert r in objects || next <= r < next + |es|;
    }
  }

  /** A new object `e` under the reference `next`: what was tracked stays tracked. */
  lemma AllocateTracks(es: seq<Element>, refs: seq<nat>, objects: map<nat, Element>, next: nat, e: Element)
    requires Tracks(es, refs, objects, next)
    ensures Tracks(es, refs, objects[next := e], next + 1)
    ensures forall k :: k in objects ==> k in objects[next := e] && objects[next := e][k] == objects[k]
  {
  }

  /** Appending the new object `e` under the reference `next`. */
  lemma AppendTracks(es: seq<Element>, refs: seq<nat>, objects: map<nat, Element>, next: nat, e: Element)
    requires Tracks(es, refs, objects, next)
    ensures Tracks(es + [e], refs + [next], objects[next := e], next + 1)
  {
    Seqs.DistinctAppend(refs, next);
    var refs', es', objects' := refs + [next], es + [e], objects[next := e];
    forall i | 0 <= i < |refs'| ensures refs'[i] in objects' && objects'[refs'[i]] == es'[i] {
      if i < |refs| { assert refs'[i] == refs[i] && es'[i] == es[i]; }
    }
  }

  /** Replacing the element at `k` by the new object `e` under the reference `next`. */
  lemma ReplaceTracks(es: seq<Element>, refs: seq<nat>, objects: map<nat, Element>, next: nat,
                      k: nat, e: Element)
    requires Tracks(es, refs, objects, next) && k < |es|
    ensures Tracks(es[k := e], refs[k := next], objects[next := e], next + 1)
  {
    var refs' := refs[k := next];
    forall a, b | 0 <= a < b < |refs'| ensures refs'[a] != refs'[b] {
      if a != k && b != k { assert refs'[a] == refs[a] && refs'[b] == refs[b]; }
    }
  }

  /** Removing the element at `i`: the others keep their objects. */
  lemma RemoveTracks(es: seq<Element>, refs: seq<nat>, objects: map<nat, Element>, next: nat, i: int)
    requires Tracks(es, refs, objects, next)
    ensures Tracks(RemoveAt(es, i), RemoveAt(refs, i), objects, next)
  {
    RemoveAtDistinct(refs, i);
    if 0 <= i < |refs| {
      var es', refs' := RemoveAt(es, i), RemoveAt(refs, i);
      forall j | 0 <= j < |refs'| ensures refs'[j] in objects && objects[refs'[j]] == es'[j] {
        var j' := if j < i then j else j + 1;
        assert refs'[j] == refs[j'] && es'[j] == es[j'];
      }
    }
  }

  class Editor {
    var template: Option<Template>
    var refs: seq<nat>
    var nextRef: nat
    ghost var objects: map<nat, Element>
    var loading: bool
    var saving: bool
    var error: Option<string>
    var selected: Option<Selected>
    var drag: DragState
    var currentPdfPage: int

    /**
     * Every element object has a reference of its own, and none is reused
     * later; each reference in use names an object with the contents held
     * under it.
     */
    ghost predicate Valid()
      reads this
    {
      (template.Some? ==> Tracks(template.value.elements, refs, objects, nextRef))
      && (template.None? ==> refs == [] && forall r :: r in objects ==> r < nextRef)
      && (drag.dragged.Some? ==> IsObject(drag.dragged.value))
    }

    /** `h` is an object of the editor: its reference names its own contents. */
    ghost predicate IsObject(h: Handle)
      reads this
    {
      h.ref in objects && objects[h.ref] == h.element
    }

    /** The element list, empty without a template. */
    function Elements(): seq<Element>
      reads this
    {
      if template.Some? then template.value.elements else []
    }

    constructor ()
      ensures Valid()
      ensures template == None && refs == [] && !loading && !saving && error == None
      ensures selected == None && drag == IdleDrag && currentPdfPage == 1
    {
      template := None;
      refs := [];
      nextRef := 0;
      objects := map[];
      loading := false;
      saving := false;
      error := None;
      selected := None;
      drag := IdleDrag;
      currentPdfPage := 1;
    }

    /** `setTemplate(t)` with a fetched template: every element is a new object. */
    method Install(t: Template)
      requires Valid()
      modifies this
      ensures Valid()
      ensures template == Some(t)
      ensures forall i :: 0 <= i < |refs| ==> refs[i] == old(nextRef) + i
      ensures nextRef == old(nextRef) + |t.elements|
      ensures loading == old(loading) && saving == old(saving) && error == old(error)
      ensures selected == old(selected) && drag == old(drag) && currentPdfPage == old(currentPdfPage)
    {
      var n := |t.elements|;
      var base := nextRef;
      objects := LoadObjects(objects, base, t.elements);
      refs := FreshRefs(base, n);
      nextRef := base + n;
      template := Some(t);
    }

    /** `loadTemplate`: the fetched template replaces the current one; a failure sets the error. */
    method LoadTemplate(response: Response<Template>)
      requires Valid()
      modifies this
      ensures Valid()
      ensures !loading
      ensures response.Ok? ==> template == Some(response.data) && error == None
      ensures response.Ok? ==> forall i :: 0 <= i < |refs| ==> refs[i] == old(nextRef) + i
      ensures response.Ok? ==> nextRef == old(nextRef) + |response.data.elements|
      ensures response.Failed? ==> template == old(template) && refs == old(refs) && nextRef == old(nextRef)
      ensures response.Failed? ==>
        error == Some(ErrorText(response.message, "Erreur lors du chargement du template"))
      ensures saving == old(saving) && selected == old(selected) && drag == old(drag)
      ensures currentPdfPage == old(currentPdfPage)
    {
      loading := true;
      error := None;
      match response {
        case Ok(t) => Install(t);
        case Failed(message) =>
          error := Some(ErrorText(message, "Erreur lors du chargement du template"));
      }
      loading := false;
    }

    /**
     * `saveTemplate`: sends the editable fields of the template to that
     * template's own address (its id); on failure the error is set and the
     * failure is passed on to the caller. Without a template nothing is sent.
     */
    method SaveTemplate(outcome: Response<()>) returns (sent: Option<SaveRequest>, rethrown: bool)
      requires Valid()
      modifies this
      ensures Valid()
      ensures old(template).None? ==> sent.None? && !rethrown && error == old(error)
      ensures old(template).Some? ==> sent == Some(SaveRequest(old(template).value.id, SaveBody(
        old(template).value.title, old(template).value.description, old(template).value.category,
        old(template).value.ageRange, old(template).value.variables, old(template).value.elements)))
      ensures old(template).Some? ==> rethrown == outcome.Failed?
      ensures old(template).Some? && outcome.Ok? ==> error == None
      ensures old(template).Some? && outcome.Failed? ==>
        error == Some(ErrorText(outcome.message, "Erreur lors de la sauvegarde"))
      ensures !saving || saving == old(saving)
      ensures old(template).Some? ==> !saving
      ensures template == old(template) && refs == old(refs) && selected == old(selected)
      ensures drag == old(drag) && loading == old(loading) && currentPdfPage == old(currentPdfPage)
    {
      if template.None? {
        return None, false;
      }
      var t := template.value;
      saving := true;
      error := None;
      sent := Some(SaveRequest(t.id, SaveBody(t.title, t.description, t.category, t.ageRange, t.variables, t.elements)));
      rethrown := false;
      if outcome.Failed? {
        error := Some(ErrorText(outcome.message, "Erreur lors de la sauvegarde"));
        rethrown := true;
      }
      saving := false;
    }

    /** `updateTemplateField`: one text field replaced; nothing happens without a template. */
    method UpdateTemplateField(f: TemplateField)
      requires Valid()
      modifies this
      ensures Valid()
      ensures template == if old(template).Some? then Some(SetTemplateField(old(template).value, f)) else None
      ensures Elements() == old(Elements()) && refs == old(refs) && nextRef == old(nextRef)
      ensures selected == old(selected) && drag == old(drag) && currentPdfPage == old(currentPdfPage)
      ensures loading == old(loading) && saving == old(saving) && error == old(error)
    {
      if template.Some? {
        template := Some(SetTemplateField(template.value, f));
      }
    }

    /** `addVariable`: appends the blank string variable. */
    method AddVariable()
      requires Valid()
      modifies this
      ensures Valid()
      ensures old(template).None? ==> template == None
      ensures old(template).Some? ==>
        template == Some(old(template).value.(variables := old(template).value.variables + [NewVariable]))
      ensures refs == old(refs) && nextRef == old(nextRef) && selected == old(selected)
      ensures drag == old(drag) && currentPdfPage == old(currentPdfPage)
      ensures loading == old(loading) && saving == old(saving) && error == old(error)
    {
      if template.Some? {
        var t := template.value;
        template := Some(t.(variables := t.variables + [NewVariable]));
      }
    }

    /** `updateVariable(index, field, value)`: only that field of that variable changes. */
    method UpdateVariable(index: int, f: VariableField)
      requires Valid()
      requires template.Some? ==> 0 <= index < |template.value.variables|
      modifies this
      ensures Valid()
      ensures old(template).None? ==> template == None
      ensures old(template).Some? ==> template == Some(old(template).value.(variables :=
        old(template).value.variables[index := SetVariableField(old(template).value.variables[index], f)]))
      ensures refs == old(refs) && nextRef == old(nextRef) && selected == old(selected)
      ensures drag == old(drag) && currentPdfPage == old(currentPdfPage)
      ensures loading == old(loading) && saving == old(saving) && error == old(error)
    {
      if template.Some? {
        var t := template.value;
        var updated := t.variables[index := SetVariableField(t.variables[index], f)];
        template := Some(t.(variables := updated));
      }
    }

    /** `removeVariable(index)`: the variable at `index` is dropped, the others keep their order. */
    method RemoveVariable(index: int)
      requires Valid()
      modifies this
      ensures Valid()
      ensures old(template).None? ==> template == None
      ensures old(template).Some? ==> template == Some(old(template).value.(variables :=
        RemoveAt(old(template).value.variables, index)))
      ensures refs == old(refs) && nextRef == old(nextRef) && selected == old(selected)
      ensures drag == old(drag) && currentPdfPage == old(currentPdfPage)
      ensures loading == old(loading) && saving == old(saving) && error == old(error)
    {
      if template.Some? {
        var t := template.value;
        template := Some(t.(variables := RemoveAt(t.variables, index)));
      }
    }

    /** `addElement`: appends a new element object, `NewElement`. */
    method AddElement()
      requires Valid()
      modifies this
      ensures Valid()
      ensures old(template).None? ==> template == None && refs == []
      ensures old(template).Some? ==>
        template == Some(old(template).value.(elements := old(template).value.elements + [NewElement]))
      ensures old(template).Some? ==> refs == old(refs) + [old(nextRef)] && nextRef == old(nextRef) + 1
      ensures old(template).None? ==> nextRef == old(nextRef)
      ensures selected == old(selected)
      ensures drag == old(drag) && currentPdfPage == old(currentPdfPage)
      ensures loading == old(loading) && saving == old(saving) && error == old(error)
    {
      if template.Some? {
        var t := template.value;
        AppendTracks(t.elements, refs, objects, nextRef, NewElement);
        template := Some(t.(elements := t.elements + [NewElement]));
        refs := refs + [nextRef];
        objects := objects[nextRef := NewElement];
        nextRef := nextRef + 1;
      }
    }

    /**
     * `updateElement(index, field, value)`: a new object with that field changed
     * replaces the element at `index`; a selection of that index is refreshed.
     */
    method UpdateElement(index: int, f: ElementField)
      requires Valid()
      requires template.Some? ==> 0 <= index < |template.value.elements|
      modifies this
      ensures Valid()
      ensures old(template).None? ==> template == None && selected == old(selected)
      ensures old(template).Some? ==> template == Some(old(template).value.(elements :=
        old(template).value.elements[index := SetElementField(old(template).value.elements[index], f)]))
      ensures old(template).Some? ==> refs == old(refs)[index := old(nextRef)] && nextRef == old(nextRef) + 1
      ensures old(template).None? ==> refs == old(refs) && nextRef == old(nextRef)
      ensures old(template).Some? && old(selected).Some? && old(selected).value.index == index ==>
        selected == Some(Selected(index, Some(SetElementField(old(template).value.elements[index], f))))
      ensures old(template).Some? && !(old(selected).Some? && old(selected).value.index == index) ==>
        selected == old(selected)
      ensures drag == old(drag) && currentPdfPage == old(currentPdfPage)
      ensures loading == old(loading) && saving == old(saving) && error == old(error)
    {
      if template.Some? {
        var t := template.value;
        var updated := t.elements[index := SetElementField(t.elements[index], f)];
        ReplaceTracks(t.elements, refs, objects, nextRef, index, updated[index]);
        template := Some(t.(elements := updated));
        refs := refs[index := nextRef];
        objects := objects[nextRef := updated[index]];
        nextRef := nextRef + 1;
        if selected.Some? && selected.value.index == index {
          selected := Some(Selected(index, Some(updated[index])));
        }
      }
    }

    /**
     * `removeElement(index)`: the element at `index` is dropped, the others keep
     * their order and their identity; the selection follows `SelectionAfterRemove`.
     */
    method RemoveElement(index: int)
      requires Valid()
      modifies this
      ensures Valid()
      ensures old(template).None? ==> template == None && selected == old(selected)
      ensures old(template).Some? ==> template == Some(old(template).value.(elements :=
        RemoveAt(old(template).value.elements, index)))
      ensures old(template).Some? ==> refs == RemoveAt(old(refs), index)
      ensures old(template).Some? ==>
        selected == SelectionAfterRemove(old(selected), index, old(template).value.elements)
      ensures nextRef == old(nextRef) && drag == old(drag) && currentPdfPage == old(currentPdfPage)
      ensures loading == old(loading) && saving == old(saving) && error == old(error)
    {
      if template.Some? {
        var t := template.value;
        RemoveTracks(t.elements, refs, objects, nextRef, index);
        template := Some(t.(elements := RemoveAt(t.elements, index)));
        refs := RemoveAt(refs, index);
        selected := SelectionAfterRemove(selected, index, t.elements);
      }
    }

    /** `selectElement(index)`: records the index and the element there, if any. */
    method SelectElement(index: int)
      requires Valid()
      modifies this
      ensures Valid()
      ensures old(template).None? ==> selected == old(selected)
      ensures old(template).Some? ==> selected == Some(Selected(index, At(old(template).value.elements, index)))
      ensures template == old(template) && refs == old(refs) && nextRef == old(nextRef)
      ensures drag == old(drag) && currentPdfPage == old(currentPdfPage)
      ensures loading == old(loading) && saving == old(saving) && error == old(error)
    {
      if template.Some? {
        selected := Some(Selected(index, At(template.value.elements, index)));
      }
    }

    /** `deselectElement`. */
    method DeselectElement()
      requires Valid()
      modifies this
      ensures Valid()
      ensures selected == None
      ensures template == old(template) && refs == old(refs) && nextRef == old(nextRef)
      ensures drag == old(drag) && currentPdfPage == old(currentPdfPage)
      ensures loading == old(loading) && saving == old(saving) && error == old(error)
    {
      selected := None;
    }

    /** The element object at `index`, as a caller of `startDrag` would hold it. */
    method ElementAt(index: nat) returns (h: Handle)
      requires Valid() && template.Some? && index < |template.value.elements|
      ensures h == Handle(refs[index], template.value.elements[index])
      ensures IsObject(h)
    {
      h := Handle(refs[index], template.value.elements[index]);
    }

    /**
     * `startDrag(element, mouse)`: starts dragging an existing element object,
     * remembering where on it the mouse grabbed it.
     */
    method StartDrag(h: Handle, mouse: Position)
      requires Valid()
      requires IsObject(h)
      modifies this
      ensures Valid()
      ensures drag == DragState(true, Some(h), DragOffset(mouse, h.element.position))
      ensures template == old(template) && refs == old(refs) && nextRef == old(nextRef)
      ensures selected == old(selected) && currentPdfPage == old(currentPdfPage)
      ensures loading == old(loading) && saving == old(saving) && error == old(error)
    {
      drag := DragState(true, Some(h), DragOffset(mouse, h.element.position));
    }

    /**
     * `updateDrag(mouse)`: while dragging, the dragged element is replaced by a
     * new object placed at the mouse point minus the offset. Being new, that
     * object is not one of the template's elements.
     */
    method UpdateDrag(mouse: Position)
      requires Valid()
      modifies this
      ensures Valid()
      ensures !(old(drag).isDragging && old(drag).dragged.Some?) ==> drag == old(drag)
      ensures old(drag).isDragging && old(drag).dragged.Some? ==>
        drag.isDragging && drag.offset == old(drag).offset && drag.dragged.Some?
        && drag.dragged.value.element ==
             old(drag).dragged.value.element.(position := DraggedPosition(mouse, old(drag).offset))
        && drag.dragged.value.ref !in refs && nextRef == old(nextRef) + 1
      ensures !(old(drag).isDragging && old(drag).dragged.Some?) ==> nextRef == old(nextRef)
      ensures template == old(template) && refs == old(refs)
      ensures selected == old(selected) && currentPdfPage == old(currentPdfPage)
      ensures loading == old(loading) && saving == old(saving) && error == old(error)
    {
      if drag.isDragging && drag.dragged.Some? {
        var e := drag.dragged.value.element;
        var moved := Handle(nextRef, e.(position := DraggedPosition(mouse, drag.offset)));
        if template.Some? { AllocateTracks(template.value.elements, refs, objects, nextRef, moved.element); }
        objects := objects[nextRef := moved.element];
        nextRef := nextRef + 1;
        drag := drag.(dragged := Some(moved));
      }
    }

    /**
     * `endDrag`: when the dragged object is still one of the template's
     * elements, its position is written back through `updateElement`; the drag
     * state is reset in every case. Since a reference always names the same
     * contents, the object found is the element itself, so the position written
     * back is the one it already has: `endDrag` never changes the template's
     * contents, and a position set by `updateDrag` (a new object) is never
     * written back.
     */
    method EndDrag()
      requires Valid()
      modifies this
      ensures Valid()
      ensures drag == IdleDrag
      ensures template == old(template)
      ensures !(old(drag).isDragging && old(drag).dragged.Some? && old(template).Some?
                && old(drag).dragged.value.ref in old(refs)) ==>
        refs == old(refs) && nextRef == old(nextRef) && selected == old(selected)
      ensures old(drag).isDragging && old(drag).dragged.Some? && old(template).Some?
              && old(drag).dragged.value.ref in old(refs) ==>
        var k := FindRef(old(refs), old(drag).dragged.value.ref).value;
        var es := old(template).value.elements;
        es[k := es[k].(position := old(drag).dragged.value.element.position)] == es
        && refs == old(refs)[k := old(nextRef)] && nextRef == old(nextRef) + 1
        && (old(selected).Some? && old(selected).value.index == k ==> selected == Some(Selected(k, Some(es[k]))))
        && (!(old(selected).Some? && old(selected).value.index == k) ==> selected == old(selected))
      ensures currentPdfPage == old(currentPdfPage)
      ensures loading == old(loading) && saving == old(saving) && error == old(error)
    {
      if !drag.isDragging || drag.dragged.None? || template.None? {
        drag := IdleDrag;
        return;
      }
      var found := FindRef(refs, drag.dragged.value.ref);
      if found.Some? {
        var es := template.value.elements;
        assert drag.dragged.value.element == es[found.value];
        UpdateElement(found.value, ElementPosition(drag.dragged.value.element.position));
        assert template.value.elements == es;
      }
      drag := IdleDrag;
    }

    /** `setCurrentPdfPage`: the page is taken as given. */
    method SetCurrentPdfPage(page: int)
      requires Valid()
      modifies this
      ensures Valid()
      ensures currentPdfPage == page
      ensures template == old(template) && refs == old(refs) && selected == old(selected)
      ensures drag == old(drag) && loading == old(loading) && saving == old(saving) && error == old(error)
    {
      currentPdfPage := page;
    }

    /** `nextPdfPage`: one page further, with no upper bound. */
    method NextPdfPage()
      requires Valid()
      modifies this
      ensures Valid()
      ensures currentPdfPage == old(currentPdfPage) + 1
      ensures template == old(template) && refs == old(refs) && selected == old(selected)
      ensures drag == old(drag) && loading == old(loading) && saving == old(saving) && error == old(error)
    {
      currentPdfPage := currentPdfPage + 1;
    }

    /** `prevPdfPage`: one page back, never below page 1. */
    method PrevPdfPage()
      requires Valid()
      modifies this
      ensures Valid()
      ensures currentPdfPage == PreviousPage(old(currentPdfPage))
      ensures currentPdfPage >= 1
      ensures template == old(template) && refs == old(refs) && selected == old(selected)
      ensures drag == old(drag) && loading == old(loading) && saving == old(saving) && error == old(error)
    {
      currentPdfPage := PreviousPage(currentPdfPage);
    }
  }
}
