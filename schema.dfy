/**
 * The records the application exchanges between its server and its editor:
 * templates with their variables and placed elements, zones, and the user
 * that created a template. Coordinates are reals; timestamps are integers
 * (milliseconds since the epoch).
 */
module Schema {
  import opened Wrappers

  datatype Position = Position(x: real, y: real)

  datatype Size = Size(w: real, h: real)

  /** A loosely typed default value (`any` in the source). */
  datatype Value = Str(s: string) | Num(n: real) | Bool(b: bool) | Null

  /** A named template variable with its declared type and default value. */
  datatype Variable = Variable(name: string, kind: string, defaultValue: Value)

  /** A placed element of a template page: its kind, content, position and size. */
  datatype Element = Element(kind: string, content: string, position: Position, size: Size)

  datatype Status = Draft | Public {
    /** The wire spelling, `'draft'` or `'public'`. */
    function Name(): (r: string)
      ensures r == "draft" || r == "public"
    {
      match this
      case Draft => "draft"
      case Public => "public"
    }
  }

  /** The status a wire string names, if any. */
  function ParseStatus(s: string): (r: Option<Status>)
    ensures r.Some? ==> r.value.Name() == s
    ensures r.None? ==> s != "draft" && s != "public"
  {
    if s == "draft" then Some(Draft) else if s == "public" then Some(Public) else None
  }

  lemma StatusNameRoundTrip(st: Status)
    ensures ParseStatus(st.Name()) == Some(st)
  {
  }

  datatype Creator = Creator(id: string, email: string, role: string)

  /**
   * A template as the browser receives it. A missing or empty text field is
   * the empty string.
   */
  datatype Template = Template(
    id: string,
    title: string,
    description: string,
    category: string,
    ageRange: string,
    pdfPath: string,
    variables: seq<Variable>,
    elements: seq<Element>,
    status: Status,
    createdBy: Creator,
    createdAt: int,
    updatedAt: int
  )

  /** A user account as the administration pages receive it; `role` is the wire string. */
  datatype UserRecord = UserRecord(id: string, email: string, role: string, createdAt: int)

  datatype ZoneType = TextZone | ImageZone | VariableZone

  /** A rectangular zone attached to a template. */
  datatype Zone = Zone(
    id: string,
    templateId: string,
    name: string,
    kind: ZoneType,
    variables: seq<string>,
    content: string,
    position: Position,
    size: Size
  )

  /** A partial update of a zone: each field present replaces the stored one. */
  datatype ZonePatch = ZonePatch(
    name: Option<string>,
    kind: Option<ZoneType>,
    variables: Option<seq<string>>,
    content: Option<string>,
    position: Option<Position>,
    size: Option<Size>
  )

  const EmptyZonePatch := ZonePatch(None, None, None, None, None, None)

  /** The zone with the fields present in `p` replaced; identity and template link are kept. */
  function ApplyZonePatch(z: Zone, p: ZonePatch): (r: Zone)
    ensures r.id == z.id && r.templateId == z.templateId
    ensures r.name == p.name.GetOr(z.name) && r.kind == p.kind.GetOr(z.kind)
    ensures r.variables == p.variables.GetOr(z.variables) && r.content == p.content.GetOr(z.content)
    ensures r.position == p.position.GetOr(z.position) && r.size == p.size.GetOr(z.size)
  {
    z.(name := p.name.GetOr(z.name), kind := p.kind.GetOr(z.kind),
       variables := p.variables.GetOr(z.variables), content := p.content.GetOr(z.content),
       position := p.position.GetOr(z.position), size := p.size.GetOr(z.size))
  }

  /** Applying the empty patch changes nothing. */
  lemma EmptyZonePatchIdentity(z: Zone)
    ensures ApplyZonePatch(z, EmptyZonePatch) == z
  {
  }
}
