/**
 * The PDF preview of the new-template page (`PDFViewerControl`): the page
 * counter, its text input, and the document's load outcome.
 */
module PdfViewer {
  import opened Wrappers
  import opened Text

  const LoadErrorMessage := "Erreur lors du chargement du PDF. Veuillez vérifier que le fichier est un PDF valide."

  /** `numPages` is truthy: known and not zero. */
  predicate Known(numPages: Option<nat>) {
    numPages.Some? && numPages.value != 0
  }

  /** The page `handlePageJump` adopts, if any: the parsed input when it lies between 1 and the page count. */
  function JumpTarget(input: string, numPages: Option<nat>): (r: Option<int>)
    ensures r.Some? ==> Known(numPages) && 1 <= r.value <= numPages.value
    ensures r.Some? <==> Known(numPages) && ParseInt(input).Some? && 1 <= ParseInt(input).value <= numPages.value
    ensures r.Some? ==> r == ParseInt(input)
  {
    var page := ParseInt(input);
    if Known(numPages) && page.Some? && 1 <= page.value <= numPages.value then page else None
  }

  /** Typing a page number in range, as `String` writes it, jumps to that page. */
  lemma JumpToWrittenPage(p: int, n: nat)
    requires 1 <= p <= n
    ensures JumpTarget(IntToString(p), Some(n)) == Some(p)
  {
    ParseIntOfIntToString(p);
  }

  const PrepareErrorMessage := "Erreur lors de la préparation du fichier PDF"

  /** What the render chain looks at: whether the object URL exists, the loading flag and the error. */
  datatype Phase = Phase(hasFileUrl: bool, loading: bool, error: Option<string>)

  /** The first render: no URL yet, loading, no error. */
  const InitialPhase := Phase(false, true, None)

  /** The four branches the component renders. */
  datatype Screen = Preparing | Loading | Failed(message: string) | Pages

  /**
   * The render chain: the preparation message without a URL, then the loading
   * message while loading, then the error; only the last branch renders
   * `<Document>` with its page and the page controls.
   */
  function ScreenOf(p: Phase): (s: Screen)
    ensures s == Pages <==> p.hasFileUrl && !p.loading && p.error.None?
    ensures s == Loading <==> p.hasFileUrl && p.loading
    ensures s.Failed? <==> p.hasFileUrl && !p.loading && p.error.Some?
    ensures s.Failed? ==> s.message == p.error.value
  {
    if !p.hasFileUrl then Preparing
    else if p.loading then Loading
    else if p.error.Some? then Failed(p.error.value)
    else Pages
  }

  /**
   * What changes the phase: the object-URL effect succeeding or failing, and
   * `<Document>` reporting a loaded or a broken file. Page navigation leaves
   * the phase alone.
   */
  datatype Event = UrlCreated | UrlFailed | Loaded(pages: nat) | LoadFailed

  /** A Document event: one that only a mounted `<Document>` can raise. */
  predicate FromDocument(e: Event) {
    e.Loaded? || e.LoadFailed?
  }

  /** The effect of one event on the phase, as the effect and the two load callbacks set it. */
  function Step(p: Phase, e: Event): (q: Phase)
    ensures FromDocument(e) ==> !q.loading && q.hasFileUrl == p.hasFileUrl
    ensures e.Loaded? ==> q.error.None?
    ensures e == UrlCreated ==> q == p.(hasFileUrl := true)
    ensures (e == UrlFailed || e == LoadFailed) ==> !q.loading && q.error.Some?
  {
    match e
    case UrlCreated => p.(hasFileUrl := true)
    case UrlFailed => p.(error := Some(PrepareErrorMessage), loading := false)
    case Loaded(_) => p.(loading := false, error := None)
    case LoadFailed => p.(error := Some(LoadErrorMessage), loading := false)
  }

  /** As written: `<Document>` is mounted only on the page screen. */
  predicate MountedAsWritten(p: Phase) {
    ScreenOf(p) == Pages
  }

  /**
   * As intended: `<Document>` is mounted as soon as the URL exists and no error
   * is shown, so that it can load the file and end the loading state; while
   * loading it shows its own `loading` message.
   */
  predicate Mounted(p: Phase) {
    p.hasFileUrl && p.error.None?
  }

  /** A run of events; a Document event is not raised while `<Document>` is not mounted. */
  function Run(p: Phase, evs: seq<Event>, mounted: Phase -> bool): (q: Phase)
    ensures p.hasFileUrl ==> q.hasFileUrl
    decreases |evs|
  {
    if evs == [] then p
    else
      var next := if FromDocument(evs[0]) && !mounted(p) then p else Step(p, evs[0]);
      Run(next, evs[1..], mounted)
  }

  /** As written, a phase still loading or in error stays so whatever happens. */
  lemma {:induction false} AsWrittenStaysBlocked(p: Phase, evs: seq<Event>)
    requires p.loading || p.error.Some?
    ensures var q := Run(p, evs, MountedAsWritten); q.loading || q.error.Some?
    decreases |evs|
  {
    if evs != [] {
      var next := if FromDocument(evs[0]) && !MountedAsWritten(p) then p else Step(p, evs[0]);
      assert next.loading || next.error.Some?;
      AsWrittenStaysBlocked(next, evs[1..]);
    }
  }

  /** As written, no sequence of events ever shows the document or its page controls. */
  lemma AsWrittenNeverShowsPages(evs: seq<Event>)
    ensures ScreenOf(Run(InitialPhase, evs, MountedAsWritten)) != Pages
  {
    AsWrittenStaysBlocked(InitialPhase, evs);
  }

  /** As intended, the object URL and a successful load show the document and its controls. */
  lemma MountedShowsPages(n: nat)
    ensures ScreenOf(Run(InitialPhase, [UrlCreated, Loaded(n)], Mounted)) == Pages
  {
    var p1 := Step(InitialPhase, UrlCreated);
    assert Run(InitialPhase, [UrlCreated, Loaded(n)], Mounted) == Run(p1, [Loaded(n)], Mounted);
    assert Run(p1, [Loaded(n)], Mounted) == Run(Step(p1, Loaded(n)), [], Mounted);
  }

  /**
   * The component's state, with `<Document>` mounted as `Mounted` says: its two
   * load callbacks may be raised once the URL exists.
   */
  class Viewer {
    var hasFileUrl: bool
    var numPages: Option<nat>
    var pageNumber: int
    var loading: bool
    var error: Option<string>
    var inputPage: string

    function PhaseOf(): (p: Phase)
      reads this
      ensures p.hasFileUrl == hasFileUrl && p.loading == loading && p.error == error
    {
      Phase(hasFileUrl, loading, error)
    }

    /** Before the document is known the page is 1; it is never below 1. */
    predicate Valid()
      reads this
    {
      pageNumber >= 1 && (numPages.None? ==> pageNumber == 1)
    }

    /** Once the page count is known, the page lies between 1 and it. */
    predicate InRange()
      reads this
    {
      Known(numPages) ==> 1 <= pageNumber <= numPages.value
    }

    constructor ()
      ensures numPages == None && pageNumber == 1 && loading && error == None && inputPage == "1"
      ensures PhaseOf() == InitialPhase
      ensures Valid() && InRange()
    {
      hasFileUrl := false;
      numPages := None;
      pageNumber := 1;
      loading := true;
      error := None;
      inputPage := "1";
    }

    /**
     * The object-URL effect for the chosen file: the URL is recorded, or, when
     * it cannot be created, the preparation error is set and loading ends.
     */
    method CreateFileUrl(created: bool)
      modifies this
      ensures created ==> hasFileUrl && loading == old(loading) && error == old(error)
      ensures !created ==> hasFileUrl == old(hasFileUrl) && error == Some(PrepareErrorMessage) && !loading
      ensures PhaseOf() == Step(old(PhaseOf()), if created then UrlCreated else UrlFailed)
      ensures numPages == old(numPages) && pageNumber == old(pageNumber) && inputPage == old(inputPage)
    {
      if created {
        hasFileUrl := true;
      } else {
        error := Some(PrepareErrorMessage);
        loading := false;
      }
    }

    /** `onDocumentLoadSuccess`: the page count is recorded, loading ends, the error is cleared. */
    method OnLoadSuccess(n: nat)
      requires Valid()
      modifies this
      ensures numPages == Some(n) && !loading && error == None
      ensures PhaseOf() == Step(old(PhaseOf()), Loaded(n))
      ensures pageNumber == old(pageNumber) && inputPage == old(inputPage)
      ensures Valid()
      ensures old(numPages).None? ==> InRange()
    {
      numPages := Some(n);
      loading := false;
      error := None;
    }

    /** `onDocumentLoadError`: the error message is set and loading ends. */
    method OnLoadError()
      modifies this
      ensures error == Some(LoadErrorMessage) && !loading
      ensures PhaseOf() == Step(old(PhaseOf()), LoadFailed)
      ensures numPages == old(numPages) && pageNumber == old(pageNumber) && inputPage == old(inputPage)
    {
      error := Some(LoadErrorMessage);
      loading := false;
    }

    /** `handlePrevious`: one page back when not on the first, with the input following. */
    method HandlePrevious()
      requires Valid()
      modifies this
      ensures old(pageNumber) > 1 ==> pageNumber == old(pageNumber) - 1 && inputPage == IntToString(pageNumber)
      ensures old(pageNumber) <= 1 ==> pageNumber == old(pageNumber) && inputPage == old(inputPage)
      ensures numPages == old(numPages) && loading == old(loading) && error == old(error) && hasFileUrl == old(hasFileUrl)
      ensures Valid() && (old(InRange()) ==> InRange())
    {
      if pageNumber > 1 {
        pageNumber := pageNumber - 1;
        inputPage := IntToString(pageNumber);
      }
    }

    /** `handleNext`: one page on when the page count is known and not reached, with the input following. */
    method HandleNext()
      requires Valid()
      modifies this
      ensures Known(numPages) && old(pageNumber) < numPages.value ==>
        pageNumber == old(pageNumber) + 1 && inputPage == IntToString(pageNumber)
      ensures !(Known(numPages) && old(pageNumber) < numPages.value) ==>
        pageNumber == old(pageNumber) && inputPage == old(inputPage)
      ensures numPages == old(numPages) && loading == old(loading) && error == old(error) && hasFileUrl == old(hasFileUrl)
      ensures Valid() && (old(InRange()) ==> InRange())
    {
      if Known(numPages) && pageNumber < numPages.value {
        pageNumber := pageNumber + 1;
        inputPage := IntToString(pageNumber);
      }
    }

    /** The page input's `onChange`. */
    method HandleInputChange(v: string)
      modifies this
      ensures inputPage == v
      ensures numPages == old(numPages) && pageNumber == old(pageNumber)
      ensures loading == old(loading) && error == old(error) && hasFileUrl == old(hasFileUrl)
    {
      inputPage := v;
    }

    /**
     * `handlePageJump`: the typed page is adopted when it lies between 1 and
     * the page count; otherwise the input is reset to the current page.
     */
    method HandlePageJump()
      requires Valid()
      modifies this
      ensures JumpTarget(old(inputPage), numPages).Some? ==>
        pageNumber == JumpTarget(old(inputPage), numPages).value && inputPage == old(inputPage)
      ensures JumpTarget(old(inputPage), numPages).None? ==>
        pageNumber == old(pageNumber) && inputPage == IntToString(pageNumber)
      ensures numPages == old(numPages) && loading == old(loading) && error == old(error) && hasFileUrl == old(hasFileUrl)
      ensures Valid() && (old(InRange()) ==> InRange())
    {
      var target := JumpTarget(inputPage, numPages);
      if target.Some? {
        pageNumber := target.value;
      } else {
        inputPage := IntToString(pageNumber);
      }
    }
  }
}
