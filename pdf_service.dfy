/**
 * Custom PDF generation (`PdfService.generateCustomPDF`): the text commands
 * drawn on the page and the path of the written file. Drawing, the file
 * system and the clock are outside the model: the commands are returned, the
 * working directory, its path separator and the current time are parameters,
 * and the write stream's outcome is a parameter.
 */
module PdfService {
  import opened Wrappers
  import opened Nest
  import opened Text
  import TemplatesService

  /** `doc.fontSize(fontSize).text(text, x, y)`. */
  datatype TextCommand = TextCommand(text: string, x: int, y: int, fontSize: int)

  /** The left margin of every line. */
  const Left := 50

  /** The line for one user value: `${key}: ${value}`. */
  function EntryLine(entry: (string, string)): string {
    entry.0 + ": " + entry.1
  }

  /** A template literal renders a missing description as `undefined`. */
  function DescriptionText(description: Option<string>): string {
    "Description: " + description.GetOr("undefined")
  }

  /**
   * The page layout: the title at (50, 50) in size 16, the description line at
   * (50, 80) in size 12, and the k-th user value at (50, 120 + 20k) in size 12.
   */
  predicate IsLayout(cmds: seq<TextCommand>, title: string, description: string, entries: seq<(string, string)>) {
    |cmds| == 2 + |entries|
    && cmds[0] == TextCommand(title, Left, 50, 16)
    && cmds[1] == TextCommand(description, Left, 80, 12)
    && forall k :: 0 <= k < |entries| ==> cmds[2 + k] == TextCommand(EntryLine(entries[k]), Left, 120 + 20 * k, 12)
  }

  /** Every line of the layout starts lower on the page than the lines before it. */
  lemma LayoutDescends(cmds: seq<TextCommand>, title: string, description: string, entries: seq<(string, string)>)
    requires IsLayout(cmds, title, description, entries)
    ensures forall i, j :: 0 <= i < j < |cmds| ==> cmds[i].y < cmds[j].y
    ensures forall i :: 0 <= i < |cmds| ==> cmds[i].x == Left
  {
    forall i | 0 <= i < |cmds|
      ensures cmds[i].x == Left
      ensures cmds[i].y == if i == 0 then 50 else if i == 1 then 80 else 120 + 20 * (i - 2)
    {
      if i >= 2 {
        var k := i - 2;
        assert cmds[2 + k] == TextCommand(EntryLine(entries[k]), Left, 120 + 20 * k, 12);
      }
    }
  }

  /** The drawing sequence: two header lines, then one line per entry with `yPosition` advancing by 20. */
  method Draw(title: string, description: string, entries: seq<(string, string)>) returns (cmds: seq<TextCommand>)
    ensures IsLayout(cmds, title, description, entries)
    ensures forall i, j :: 0 <= i < j < |cmds| ==> cmds[i].y < cmds[j].y
  {
    cmds := [TextCommand(title, Left, 50, 16), TextCommand(description, Left, 80, 12)];
    var yPosition := 120;
    var k := 0;
    while k < |entries|
      invariant 0 <= k <= |entries|
      invariant yPosition == 120 + 20 * k
      invariant |cmds| == 2 + k
      invariant cmds[0] == TextCommand(title, Left, 50, 16)
      invariant cmds[1] == TextCommand(description, Left, 80, 12)
      invariant forall j :: 0 <= j < k ==> cmds[2 + j] == TextCommand(EntryLine(entries[j]), Left, 120 + 20 * j, 12)
    {
      cmds := cmds + [TextCommand(EntryLine(entries[k]), Left, yPosition, 12)];
      yPosition := yPosition + 20;
      k := k + 1;
    }
    LayoutDescends(cmds, title, description, entries);
  }

  /** The generated file's name: `generated_<templateId>_<timestamp>.pdf`. */
  function FileName(templateId: string, now: int): string {
    "generated_" + templateId + "_" + IntToString(now) + ".pdf"
  }

  /** `path.join(cwd, 'uploads', 'generated', name)` with the platform separator `sep`. */
  function OutputPath(cwd: string, sep: char, templateId: string, now: int): string {
    cwd + [sep] + "uploads" + [sep] + "generated" + [sep] + FileName(templateId, now)
  }

  /**
   * `generateCustomPDF(templateId, userValues)`: NotFound, with nothing drawn,
   * when the template is not stored; otherwise the layout of its title and
   * description with the user values (in their enumeration order), and the
   * output path once the stream finishes, or the stream's error.
   */
  method GenerateCustomPdf(store: TemplatesService.Store, templateId: string, userValues: seq<(string, string)>,
                           cwd: string, sep: char, now: int, streamError: Option<string>)
    returns (r: Result<string>, cmds: seq<TextCommand>)
    ensures templateId !in store.records ==> r == NotFound(TemplatesService.TemplateNotFound(templateId)) && cmds == []
    ensures templateId in store.records ==>
      IsLayout(cmds, store.records[templateId].title, DescriptionText(store.records[templateId].description), userValues)
    ensures templateId in store.records && streamError.None? ==> r == Success(OutputPath(cwd, sep, templateId, now))
    ensures templateId in store.records && streamError.Some? ==> r == Failure(streamError.value)
  {
    match store.FindOne(templateId)
    case NotFound(message) =>
      return NotFound(message), [];
    case Success(template) =>
      var outputPath := OutputPath(cwd, sep, templateId, now);
      cmds := Draw(template.title, DescriptionText(template.description), userValues);
      match streamError
      case None => r := Success(outputPath);
      case Some(e) => r := Failure(e);
  }
}
