/**
 * The template creation page (`NewTemplatePage`): a two-step form whose
 * general information is checked against a schema, the uploaded files, and
 * the multipart request that creates the template. The files are opaque
 * handles; the request's outcome (the new template's id, or the failure)
 * is a parameter.
 */
module NewTemplate {
  import opened Wrappers
  import opened Http
  import opened Schema

  datatype Field = Title | Description | Category | Genre | AgeRange | StatusField

  const Fields: set<Field> := {Title, Description, Category, Genre, AgeRange, StatusField}

  /** The values the form holds; the status is the wire string. */
  datatype FormValues = FormValues(title: string, description: string, category: string,
                                   genre: string, ageRange: string, status: string)

  const TitleRequired := "Le titre est requis"
  const DescriptionRequired := "La description est requise"
  const CategoryRequired := "La catégorie est requise"
  const GenreRequired := "Le genre est requis"
  const AgeRangeRequired := "La tranche d'âge est requise"
  const StatusRequired := "Le statut est requis"
  const NoPdfMessage := "Veuillez d'abord télécharger un PDF"
  const CreateFailed := "Erreur lors de la création du template"

  /** The form's default values: every text empty, the status `'draft'`. */
  const InitialValues := FormValues("", "", "", "", "", "draft")

  /** The schema's verdict on one field: its message when the value is rejected. */
  function FieldError(v: FormValues, f: Field): Option<string> {
    match f
    case Title => if v.title == "" then Some(TitleRequired) else None
    case Description => if v.description == "" then Some(DescriptionRequired) else None
    case Category => if v.category == "" then Some(CategoryRequired) else None
    case Genre => if v.genre == "" then Some(GenreRequired) else None
    case AgeRange => if v.ageRange == "" then Some(AgeRangeRequired) else None
    case StatusField => if ParseStatus(v.status).None? then Some(StatusRequired) else None
  }

  /** The errors `templateSchema` reports: one message per rejected field. */
  function SchemaErrors(v: FormValues): (errors: map<Field, string>)
    ensures forall f :: f in errors <==> FieldError(v, f).Some?
    ensures forall f :: f in errors ==> errors[f] == FieldError(v, f).value
  {
    map f | f in Fields && FieldError(v, f).Some? :: FieldError(v, f).value
  }

  /** The schema accepts exactly the forms whose five texts are non-empty and whose status is draft or public. */
  lemma SchemaValidIff(v: FormValues)
    ensures SchemaErrors(v) == map[] <==>
      v.title != "" && v.description != "" && v.category != "" && v.genre != "" && v.ageRange != ""
      && (v.status == "draft" || v.status == "public")
  {
    var errors := SchemaErrors(v);
    if errors == map[] {
      assert FieldError(v, Title).None? && FieldError(v, Description).None?;
      assert FieldError(v, Category).None? && FieldError(v, Genre).None?;
      assert FieldError(v, AgeRange).None? && FieldError(v, StatusField).None?;
    } else {
      var f :| f in errors;
    }
  }

  /** The initial form only needs its five texts: its default status is accepted. */
  lemma InitialStatusAccepted()
    ensures StatusField !in SchemaErrors(InitialValues)
    ensures ParseStatus(InitialValues.status) == Some(Draft)
  {
  }

  /** A file chosen in the browser. */
  datatype File = File(name: string)

  /** A `FormData` entry. */
  datatype Part = TextPart(text: string) | FilePart(file: File)

  /**
   * The multipart body: the six form values and the PDF, in this order, and
   * the cover image last when one was chosen.
   */
  function RequestBody(v: FormValues, pdf: File, cover: Option<File>): (body: seq<(string, Part)>)
    ensures |body| == if cover.Some? then 8 else 7
    ensures body[..7] == [("title", TextPart(v.title)), ("description", TextPart(v.description)),
                          ("category", TextPart(v.category)), ("genre", TextPart(v.genre)),
                          ("ageRange", TextPart(v.ageRange)), ("status", TextPart(v.status)),
                          ("pdf", FilePart(pdf))]
    ensures cover.Some? ==> body[7] == ("coverImage", FilePart(cover.value))
  {
    var base := [("title", TextPart(v.title)), ("description", TextPart(v.description)),
                 ("category", TextPart(v.category)), ("genre", TextPart(v.genre)),
                 ("ageRange", TextPart(v.ageRange)), ("status", TextPart(v.status)),
                 ("pdf", FilePart(pdf))];
    match cover
    case Some(c) => base + [("coverImage", FilePart(c))]
    case None => base
  }

  /** The body carries a cover image entry exactly when a cover image was chosen, and a PDF entry always. */
  lemma CoverEntryIff(v: FormValues, pdf: File, cover: Option<File>)
    ensures (exists i :: 0 <= i < |RequestBody(v, pdf, cover)| && RequestBody(v, pdf, cover)[i].0 == "coverImage")
      <==> cover.Some?
    ensures RequestBody(v, pdf, cover)[6] == ("pdf", FilePart(pdf))
  {
    var body := RequestBody(v, pdf, cover);
    if cover.Some? {
      assert body[7].0 == "coverImage";
    } else {
      forall i | 0 <= i < |body| ensures body[i].0 != "coverImage" {
        assert body[i] == body[..7][i];
      }
    }
  }

  /** The page after a successful creation: the template's editor. */
  function EditorRoute(id: string): string {
    "/editor/" + id
  }

  class Page {
    var currentStep: nat
    var isLoading: bool
    var error: Option<string>
    var pdfFile: Option<File>
    var coverImage: Option<File>
    var values: FormValues
    var errors: map<Field, string>
    var location: Option<string>

    constructor ()
      ensures currentStep == 0 && !isLoading && error == None && pdfFile == None && coverImage == None
      ensures values == InitialValues && errors == map[] && location == None
    {
      currentStep := 0;
      isLoading := false;
      error := None;
      pdfFile := None;
      coverImage := None;
      values := InitialValues;
      errors := map[];
      location := None;
    }

    /** "Suivant". */
    method Next()
      modifies this
      ensures currentStep == 1
      ensures values == old(values) && pdfFile == old(pdfFile) && coverImage == old(coverImage)
      ensures isLoading == old(isLoading) && error == old(error) && errors == old(errors) && location == old(location)
    {
      currentStep := 1;
    }

    /** "Précédent". */
    method Previous()
      modifies this
      ensures currentStep == 0
      ensures values == old(values) && pdfFile == old(pdfFile) && coverImage == old(coverImage)
      ensures isLoading == old(isLoading) && error == old(error) && errors == old(errors) && location == old(location)
    {
      currentStep := 0;
    }

    /** A registered input (or the status toggle's `setValue`) writing the form's values. */
    method SetValues(v: FormValues)
      modifies this
      ensures values == v
      ensures currentStep == old(currentStep) && pdfFile == old(pdfFile) && coverImage == old(coverImage)
      ensures isLoading == old(isLoading) && error == old(error) && errors == old(errors) && location == old(location)
    {
      values := v;
    }

    method HandlePdfUpload(file: File)
      modifies this
      ensures pdfFile == Some(file)
      ensures currentStep == old(currentStep) && values == old(values) && coverImage == old(coverImage)
      ensures isLoading == old(isLoading) && error == old(error) && errors == old(errors) && location == old(location)
    {
      pdfFile := Some(file);
    }

    method HandleCoverImageUpload(file: File)
      modifies this
      ensures coverImage == Some(file)
      ensures currentStep == old(currentStep) && values == old(values) && pdfFile == old(pdfFile)
      ensures isLoading == old(isLoading) && error == old(error) && errors == old(errors) && location == old(location)
    {
      coverImage := Some(file);
    }

    /**
     * `handleSubmit(onSubmit)`: a form the schema rejects shows its errors and
     * sends nothing; without a PDF the page shows the upload error and sends
     * nothing; otherwise the multipart body is sent, a success navigates to the
     * new template's editor, a failure shows the server's message or the
     * fallback, and loading ends.
     */
    method Submit(outcome: Response<string>) returns (sent: Option<seq<(string, Part)>>)
      modifies this
      ensures errors == SchemaErrors(old(values))
      ensures values == old(values) && pdfFile == old(pdfFile) && coverImage == old(coverImage)
      ensures currentStep == old(currentStep)
      ensures sent.Some? <==> SchemaErrors(old(values)) == map[] && old(pdfFile).Some?
      ensures sent.Some? ==> sent.value == RequestBody(old(values), old(pdfFile).value, old(coverImage))
      ensures sent.Some? ==> !isLoading
      ensures sent.Some? && outcome.Ok? ==> location == Some(EditorRoute(outcome.data)) && error == None
      ensures sent.Some? && outcome.Failed? ==>
        location == old(location) && error == Some(ErrorText(outcome.message, CreateFailed))
      ensures SchemaErrors(old(values)) == map[] && old(pdfFile).None? ==>
        error == Some(NoPdfMessage) && isLoading == old(isLoading) && location == old(location)
      ensures SchemaErrors(old(values)) != map[] ==>
        error == old(error) && isLoading == old(isLoading) && location == old(location)
    {
      errors := SchemaErrors(values);
      if errors != map[] {
        return None;
      }
      if pdfFile.None? {
        error := Some(NoPdfMessage);
        return None;
      }
      isLoading := true;
      error := None;
      var body := RequestBody(values, pdfFile.value, coverImage);
      sent := Some(body);
      match outcome {
        case Ok(id) => location := Some(EditorRoute(id));
        case Failed(message) => error := Some(ErrorText(message, CreateFailed));
      }
      isLoading := false;
    }
  }
}
