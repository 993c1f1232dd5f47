/**
 * The PDF routes' string rules (`PdfController`): the public URL of a
 * generated file, and the listing of the generated-files directory. The
 * directory's contents are a parameter: `None` when it does not exist,
 * otherwise its file names in directory order.
 */
module PdfController {
  import opened Wrappers
  import opened Text
  import Seqs
  import PdfService

  /** `pdfPath.replace(cwd, '').replace(/\\/g, '/')`: the first occurrence of `cwd` removed, then every backslash made a slash. */
  function RelativeUrl(pdfPath: string, cwd: string): (r: string)
    ensures '\\' !in r
  {
    var r := ReplaceAllChar(ReplaceFirst(pdfPath, cwd, ""), '\\', '/');
    assert forall i :: 0 <= i < |r| ==> r[i] != '\\';
    r
  }

  /** The URL of a generated file, on either separator: the path below the working directory, with forward slashes. */
  lemma GeneratedUrl(cwd: string, sep: char, templateId: string, now: int)
    requires sep == '/' || sep == '\\'
    requires '\\' !in templateId
    ensures RelativeUrl(PdfService.OutputPath(cwd, sep, templateId, now), cwd)
      == "/uploads/generated/" + PdfService.FileName(templateId, now)
  {
    var name := PdfService.FileName(templateId, now);
    var dir := [sep] + "uploads" + [sep] + "generated" + [sep];
    var path := PdfService.OutputPath(cwd, sep, templateId, now);
    assert path == cwd + (dir + name);
    calc {
      RelativeUrl(path, cwd);
      ReplaceAllChar(ReplaceFirst(cwd + (dir + name), cwd, ""), '\\', '/');
      { RemovePrefix(cwd, dir + name); }
      ReplaceAllChar(dir + name, '\\', '/');
      { ReplaceAllCharConcat(dir, name, '\\', '/'); }
      ReplaceAllChar(dir, '\\', '/') + ReplaceAllChar(name, '\\', '/');
      { DirectoryUrl(sep); NoBackslashInFileName(templateId, now); ReplaceAllCharAbsent(name, '\\', '/'); }
      "/uploads/generated/" + name;
    }
  }

  /** The separators of `uploads/generated` become slashes, and nothing else changes. */
  lemma DirectoryUrl(sep: char)
    requires sep == '/' || sep == '\\'
    ensures ReplaceAllChar([sep] + "uploads" + [sep] + "generated" + [sep], '\\', '/') == "/uploads/generated/"
  {
    var s := ReplaceAllChar([sep], '\\', '/');
    assert s == "/";
    ReplaceAllCharAbsent("uploads", '\\', '/');
    ReplaceAllCharAbsent("generated", '\\', '/');
    ReplaceAllCharConcat([sep], "uploads", '\\', '/');
    ReplaceAllCharConcat([sep] + "uploads", [sep], '\\', '/');
    ReplaceAllCharConcat([sep] + "uploads" + [sep], "generated", '\\', '/');
    ReplaceAllCharConcat([sep] + "uploads" + [sep] + "generated", [sep], '\\', '/');
  }

  lemma NoBackslashInFileName(templateId: string, now: int)
    requires '\\' !in templateId
    ensures '\\' !in PdfService.FileName(templateId, now)
  {
    var digits := IntToString(now);
    assert forall i :: 0 <= i < |digits| ==> digits[i] != '\\' by {
      forall i | 0 <= i < |digits| ensures digits[i] != '\\' {
        if now < 0 {
          assert i == 0 || ("-" + NatToString(-now))[i] == NatToString(-now)[i - 1];
        }
      }
    }
  }

  /** An entry of the listing. */
  datatype GeneratedPdf = GeneratedPdf(filename: string, path: string)

  predicate IsPdf(filename: string) {
    EndsWith(filename, ".pdf")
  }

  /** `files.filter(file => file.endsWith('.pdf'))`. */
  function PdfFiles(files: seq<string>): (r: seq<string>)
    ensures forall i :: 0 <= i < |r| ==> IsPdf(r[i])
    ensures forall i :: 0 <= i < |files| && IsPdf(files[i]) ==> files[i] in r
    ensures Seqs.IsSubsequence(r, files)
  {
    Seqs.Filter(files, IsPdf)
  }

  /** `getGeneratedPdfs`: nothing without the directory; otherwise one entry per PDF file, in directory order. */
  function GeneratedPdfs(directory: Option<seq<string>>): (r: seq<GeneratedPdf>)
    ensures directory.None? ==> r == []
    ensures directory.Some? ==> |r| == |PdfFiles(directory.value)|
    ensures directory.Some? ==> forall i :: 0 <= i < |r| ==>
      r[i].filename == PdfFiles(directory.value)[i] && r[i].path == "/uploads/generated/" + r[i].filename
  {
    match directory
    case None => []
    case Some(files) =>
      var pdfs := PdfFiles(files);
      seq(|pdfs|, i requires 0 <= i < |pdfs| => GeneratedPdf(pdfs[i], "/uploads/generated/" + pdfs[i]))
  }

  /** A file written by the generator is listed, under the URL the generation route returns for it. */
  lemma GeneratedFileIsListed(files: seq<string>, cwd: string, sep: char, templateId: string, now: int)
    requires sep == '/' || sep == '\\'
    requires '\\' !in templateId
    requires PdfService.FileName(templateId, now) in files
    ensures exists i :: (0 <= i < |GeneratedPdfs(Some(files))| &&
      GeneratedPdfs(Some(files))[i] == GeneratedPdf(PdfService.FileName(templateId, now),
                                                    RelativeUrl(PdfService.OutputPath(cwd, sep, templateId, now), cwd)))
  {
    var name := PdfService.FileName(templateId, now);
    GeneratedUrl(cwd, sep, templateId, now);
    assert IsPdf(name) by {
      var prefix := "generated_" + templateId + "_" + IntToString(now);
      assert name == prefix + ".pdf";
      assert name[|name| - 4..] == ".pdf";
    }
    var k :| 0 <= k < |files| && files[k] == name;
    var pdfs := PdfFiles(files);
    assert name in pdfs;
    var i :| 0 <= i < |pdfs| && pdfs[i] == name;
    assert GeneratedPdfs(Some(files))[i].filename == name;
  }
}
