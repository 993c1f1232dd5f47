/**
 * The zone properties panel (`PropertiesSidebar`): every input turns into a
 * one-field partial update of the selected zone. The variables input shows
 * the list joined by `", "` and reads it back by splitting at commas,
 * trimming and dropping the empty pieces. Numeric inputs arrive as numbers.
 */
module PropertiesSidebar {
  import opened Wrappers
  import opened Schema
  import opened Text
  import Seqs

  /** `pieces.map(v => v.trim())`. */
  function TrimAll(pieces: seq<string>): (r: seq<string>)
    ensures |r| == |pieces| && forall i :: 0 <= i < |pieces| ==> r[i] == Trim(pieces[i])
  {
    seq(|pieces|, i requires 0 <= i < |pieces| => Trim(pieces[i]))
  }

  /** `value.split(',').map(v => v.trim()).filter(v => v)`. */
  function ParseVariables(input: string): (r: seq<string>)
    ensures forall i :: 0 <= i < |r| ==> r[i] != "" && ',' !in r[i] && IsTrimmed(r[i])
  {
    var pieces := Split(input, ',');
    var trimmed := TrimAll(pieces);
    TrimmedPiecesClean(pieces);
    Seqs.Filter(trimmed, (v: string) => v != "")
  }

  /** Trimmed comma-free pieces are trimmed and comma-free. */
  lemma TrimmedPiecesClean(pieces: seq<string>)
    requires forall i :: 0 <= i < |pieces| ==> ',' !in pieces[i]
    ensures forall x :: x in TrimAll(pieces) ==> ',' !in x && IsTrimmed(x)
  {
    forall x | x in TrimAll(pieces) ensures ',' !in x && IsTrimmed(x) {
      var j :| 0 <= j < |pieces| && TrimAll(pieces)[j] == x;
      TrimKeepsAbsent(pieces[j], ',');
    }
  }

  /** `variables.join(', ')`: what the input displays. */
  function DisplayVariables(vs: seq<string>): string {
    Join(vs, ", ")
  }

  /** A variable name the display can carry unchanged: non-empty, trimmed, without a comma. */
  predicate Displayable(v: string) {
    v != "" && IsTrimmed(v) && ',' !in v
  }

  /** The pieces after the first, each behind the space its comma was followed by. */
  function Spaced(vs: seq<string>): (r: seq<string>)
    ensures |r| == |vs| && forall i :: 0 <= i < |vs| ==> r[i] == " " + vs[i]
  {
    seq(|vs|, i requires 0 <= i < |vs| => " " + vs[i])
  }

  lemma SpacedCons(vs: seq<string>)
    requires |vs| >= 1
    ensures Spaced(vs) == [" " + vs[0]] + Spaced(vs[1..])
  {
  }

  /** Splitting a displayed list at its commas: the first name, then every other one behind a space. */
  lemma {:induction false} SplitDisplay(p: string, vs: seq<string>)
    requires ',' !in p && |vs| >= 1
    requires forall i :: 0 <= i < |vs| ==> ',' !in vs[i]
    ensures Split(p + Join(vs, ", "), ',') == [p + vs[0]] + Spaced(vs[1..])
    decreases |vs|
  {
    if |vs| == 1 {
      assert ',' !in p + vs[0];
    } else {
      var tail := vs[1..];
      var a := p + vs[0];
      var b := " " + Join(tail, ", ");
      assert ',' !in a;
      assert p + Join(vs, ", ") == a + [','] + b by {
        assert Join(vs, ", ") == vs[0] + ", " + Join(tail, ", ");
        assert ", " == [','] + " ";
      }
      calc {
        Split(p + Join(vs, ", "), ',');
        Split(a + [','] + b, ',');
        { SplitAfter(a, ',', b); }
        [a] + Split(b, ',');
        { SplitDisplay(" ", tail); }
        [a] + ([" " + tail[0]] + Spaced(tail[1..]));
        { SpacedCons(tail); }
        [a] + Spaced(tail);
      }
    }
  }

  /** Trimming the pieces of a displayed list of displayable names gives the names. */
  lemma TrimPieces(vs: seq<string>)
    requires |vs| >= 1 && forall i :: 0 <= i < |vs| ==> Displayable(vs[i])
    ensures TrimAll([vs[0]] + Spaced(vs[1..])) == vs
  {
    var pieces := [vs[0]] + Spaced(vs[1..]);
    forall i | 0 <= i < |vs| ensures TrimAll(pieces)[i] == vs[i] {
      TrimPieceAt(vs, i);
    }
  }

  lemma TrimPieceAt(vs: seq<string>, i: nat)
    requires i < |vs| && IsTrimmed(vs[i])
    ensures Trim(([vs[0]] + Spaced(vs[1..]))[i]) == vs[i]
  {
    var tail := Spaced(vs[1..]);
    TrimmedName(vs[i]);
    if i > 0 {
      assert ([vs[0]] + tail)[i] == tail[i - 1] == " " + vs[1..][i - 1];
      assert vs[1..][i - 1] == vs[i];
    }
  }

  /** A trimmed name, with or without the space before it, trims to itself. */
  lemma TrimmedName(v: string)
    requires IsTrimmed(v)
    ensures Trim(v) == v && Trim(" " + v) == v
  {
    assert "" + v + "" == v && " " + v + "" == " " + v;
    TrimPadded("", v, "");
    assert IsWhiteSpace(' ');
    TrimPadded(" ", v, "");
  }

  /** Reading back a displayed list of displayable names gives the list. */
  lemma ParseDisplayRoundTrip(vs: seq<string>)
    requires forall i :: 0 <= i < |vs| ==> Displayable(vs[i])
    ensures ParseVariables(DisplayVariables(vs)) == vs
  {
    if vs == [] {
      assert Split("", ',') == [""];
      assert TrimAll([""]) == [""];
    } else {
      SplitDisplay("", vs);
      assert "" + Join(vs, ", ") == Join(vs, ", ");
      TrimPieces(vs);
      Seqs.FilterAll(vs, (v: string) => v != "");
    }
  }

  /** A list read from the input is displayable, so it survives being shown and read again. */
  lemma ParseIdempotent(input: string)
    ensures ParseVariables(DisplayVariables(ParseVariables(input))) == ParseVariables(input)
  {
    ParseDisplayRoundTrip(ParseVariables(input));
  }

  datatype Axis = X | Y
  datatype Dimension = W | H

  /** One input of the panel with the value it produced. */
  datatype Edit =
    | NameEdit(name: string)
    | KindEdit(kind: ZoneType)
    | ContentEdit(content: string)
    | VariablesEdit(input: string)
    | PositionEdit(axis: Axis, coordinate: real)
    | SizeEdit(dimension: Dimension, extent: real)

  /** `{ ...position, [axis]: value }`. */
  function MoveAxis(p: Position, axis: Axis, v: real): (r: Position)
    ensures axis == X ==> r == Position(v, p.y)
    ensures axis == Y ==> r == Position(p.x, v)
  {
    match axis
    case X => p.(x := v)
    case Y => p.(y := v)
  }

  /** `{ ...size, [dimension]: value }`. */
  function Resize(s: Size, d: Dimension, v: real): (r: Size)
    ensures d == W ==> r == Size(v, s.h)
    ensures d == H ==> r == Size(s.w, v)
  {
    match d
    case W => s.(w := v)
    case H => s.(h := v)
  }

  /** The partial update an edit sends for zone `z`: exactly one field is present. */
  function PatchOf(z: Zone, e: Edit): (p: ZonePatch)
    ensures e.NameEdit? ==> p == EmptyZonePatch.(name := Some(e.name))
    ensures e.KindEdit? ==> p == EmptyZonePatch.(kind := Some(e.kind))
    ensures e.ContentEdit? ==> p == EmptyZonePatch.(content := Some(e.content))
    ensures e.VariablesEdit? ==> p == EmptyZonePatch.(variables := Some(ParseVariables(e.input)))
    ensures e.PositionEdit? ==> p == EmptyZonePatch.(position := Some(MoveAxis(z.position, e.axis, e.coordinate)))
    ensures e.SizeEdit? ==> p == EmptyZonePatch.(size := Some(Resize(z.size, e.dimension, e.extent)))
  {
    match e
    case NameEdit(n) => EmptyZonePatch.(name := Some(n))
    case KindEdit(k) => EmptyZonePatch.(kind := Some(k))
    case ContentEdit(c) => EmptyZonePatch.(content := Some(c))
    case VariablesEdit(input) => EmptyZonePatch.(variables := Some(ParseVariables(input)))
    case PositionEdit(axis, v) => EmptyZonePatch.(position := Some(MoveAxis(z.position, axis, v)))
    case SizeEdit(d, v) => EmptyZonePatch.(size := Some(Resize(z.size, d, v)))
  }

  /**
   * What the panel sends: nothing without a selected zone, otherwise the
   * selected zone's id with the edit's partial update.
   */
  function OnEdit(selected: Option<Zone>, e: Edit): (r: Option<(string, ZonePatch)>)
    ensures selected.None? <==> r.None?
    ensures r.Some? ==> r.value.0 == selected.value.id && r.value.1 == PatchOf(selected.value, e)
  {
    match selected
    case None => None
    case Some(z) => Some((z.id, PatchOf(z, e)))
  }

  /** A position edit applied to the zone moves it along that axis only and changes nothing else. */
  lemma PositionEditMovesOneAxis(z: Zone, axis: Axis, v: real)
    ensures ApplyZonePatch(z, PatchOf(z, PositionEdit(axis, v))) == z.(position := MoveAxis(z.position, axis, v))
    ensures axis == X ==> ApplyZonePatch(z, PatchOf(z, PositionEdit(axis, v))).position.y == z.position.y
    ensures axis == Y ==> ApplyZonePatch(z, PatchOf(z, PositionEdit(axis, v))).position.x == z.position.x
  {
  }

  /** A size edit applied to the zone changes that dimension only and nothing else. */
  lemma SizeEditResizesOneDimension(z: Zone, d: Dimension, v: real)
    ensures ApplyZonePatch(z, PatchOf(z, SizeEdit(d, v))) == z.(size := Resize(z.size, d, v))
    ensures d == W ==> ApplyZonePatch(z, PatchOf(z, SizeEdit(d, v))).size.h == z.size.h
    ensures d == H ==> ApplyZonePatch(z, PatchOf(z, SizeEdit(d, v))).size.w == z.size.w
  {
  }
}
