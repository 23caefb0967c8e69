/** backend/process/ocr.py: the mode dispatch of `ocr_from_file`,
    `get_combined_markdown`, the guards of `correct_text_with_ai` and the
    extension dispatch of `extract_text_from_file`.  The Mistral client is an
    oracle: uploading a file gives a signed URL, processing a document gives
    the pages, and the proofreading chat gives text. */
module Ocr {
  import opened Common

  datatype DocumentKind = ImageUrl | DocumentUrl

  datatype OcrPage = OcrPage(markdown: string)
  datatype OcrResponse = OcrResponse(pages: seq<OcrPage>)

  datatype OcrClient = OcrClient(
    upload: string -> Outcome<string>,
    process: (DocumentKind, string) -> Outcome<OcrResponse>)

  /** `client.chat.complete` with the proofreading instruction, on the user's text. */
  type Proofreader = string -> Outcome<string>

  const MissingMistralKey := "Mistral API Key is required."
  const InvalidKey := "API invalid."
  const NotFound := "File/Text not found"
  const PageSeparator := "\n\n"

  // ---------------------------------------------------------------------
  // ocr_from_file

  /** The document kind a mode selects; any other mode leaves `ocr_response` unbound. */
  function DocumentFor(mode: string): (r: Outcome<DocumentKind>)
    ensures r.Ok? <==> mode == "image" || mode == "pdf"
    ensures mode == "image" ==> r == Ok(ImageUrl)
    ensures mode == "pdf" ==> r == Ok(DocumentUrl)
    ensures r.Raised? ==> r.exc == Unbound("ocr_response")
  {
    if mode == "image" then Ok(ImageUrl)
    else if mode == "pdf" then Ok(DocumentUrl)
    else Raised(Unbound("ocr_response"))
  }

  /** What `ocr_from_file` does once it holds a client: upload, sign, then
      process the document of the selected kind. */
  function Process(client: OcrClient, filePath: string, mode: string): (r: Outcome<OcrResponse>)
    ensures client.upload(filePath).Raised? ==> r == Raised(client.upload(filePath).exc)
    ensures client.upload(filePath).Ok? && DocumentFor(mode).Raised? ==> r == Raised(Unbound("ocr_response"))
    ensures client.upload(filePath).Ok? && DocumentFor(mode).Ok? ==>
      r == client.process(DocumentFor(mode).value, client.upload(filePath).value)
  {
    match client.upload(filePath)
    case Raised(e) => Raised(e)
    case Ok(url) =>
      match DocumentFor(mode)
      case Raised(e) => Raised(e)
      case Ok(kind) => client.process(kind, url)
  }

  /** `ocr_from_file(file_path, api_key, mode)`; a failure to build the
      client is reported as "API invalid.". */
  function OcrFromFile(filePath: string, apiKey: string, mode: string, client: Outcome<OcrClient>): (r: Outcome<OcrResponse>)
    ensures apiKey == "" ==> r == Raised(Exception(ValueError, MissingMistralKey))
    ensures apiKey != "" && client.Raised? ==> r == Raised(Exception(ValueError, InvalidKey))
    ensures apiKey != "" && client.Ok? ==> r == Process(client.value, filePath, mode)
  {
    if apiKey == "" then Raised(Exception(ValueError, MissingMistralKey))
    else match client
      case Raised(_) => Raised(Exception(ValueError, InvalidKey))
      case Ok(c) => Process(c, filePath, mode)
  }

  // ---------------------------------------------------------------------
  // get_combined_markdown

  /** The markdown of each page, in page order. */
  function PageMarkdowns(response: OcrResponse): (r: seq<string>)
    ensures |r| == |response.pages|
    ensures forall i :: 0 <= i < |r| ==> r[i] == response.pages[i].markdown
  {
    seq(|response.pages|, i requires 0 <= i < |response.pages| => response.pages[i].markdown)
  }

  /** `get_combined_markdown`: collects the page markdown in a list, then joins it. */
  method CombinedMarkdown(response: OcrResponse) returns (r: string)
    ensures r == Join(PageMarkdowns(response), PageSeparator)
  {
    var markdowns: seq<string> := [];
    for i := 0 to |response.pages|
      invariant markdowns == PageMarkdowns(response)[..i]
    {
      markdowns := markdowns + [response.pages[i].markdown];
    }
    assert markdowns == PageMarkdowns(response);
    r := Join(markdowns, PageSeparator);
  }

  /** No pages give the empty text; one page gives its markdown as it is. */
  lemma CombinedSmallCases(response: OcrResponse)
    ensures |response.pages| == 0 ==> Join(PageMarkdowns(response), PageSeparator) == ""
    ensures |response.pages| == 1 ==> Join(PageMarkdowns(response), PageSeparator) == response.pages[0].markdown
  {
  }

  /** Page `k` stands in the combined text after pages 0..k-1 and before the
      rest, each boundary marked by one blank line. */
  lemma {:induction false} CombinedPageOrder(response: OcrResponse, k: nat)
    requires k < |response.pages|
    ensures var xs := PageMarkdowns(response);
      Join(xs, PageSeparator) ==
        (if k == 0 then "" else Join(xs[..k], PageSeparator) + PageSeparator)
        + xs[k]
        + (if k == |xs| - 1 then "" else PageSeparator + Join(xs[k + 1..], PageSeparator))
  {
    var xs := PageMarkdowns(response);
    var tail := xs[k..];
    if k + 1 < |xs| {
      assert tail == [xs[k]] + xs[k + 1..];
      JoinAppend([xs[k]], xs[k + 1..], PageSeparator);
    } else {
      assert tail == [xs[k]];
    }
    if k > 0 {
      assert xs == xs[..k] + tail;
      JoinAppend(xs[..k], tail, PageSeparator);
    } else {
      assert xs == tail;
    }
  }

  /** The combined text is as long as all pages plus two characters per boundary. */
  lemma CombinedLength(response: OcrResponse)
    requires |response.pages| > 0
    ensures |Join(PageMarkdowns(response), PageSeparator)| ==
      SumLengths(PageMarkdowns(response)) + 2 * (|response.pages| - 1)
  {
    JoinLength(PageMarkdowns(response), PageSeparator, SumLengths(PageMarkdowns(response)));
  }

  // ---------------------------------------------------------------------
  // correct_text_with_ai

  /** `correct_text_with_ai(text, api_key)`: a missing key raises, a client
      that cannot be built is reported as text. */
  function CorrectTextWithAi(text: string, apiKey: string, client: Outcome<Proofreader>): (r: Outcome<string>)
    ensures apiKey == "" ==> r == Raised(Exception(ValueError, MissingMistralKey))
    ensures apiKey != "" && client.Raised? ==> r == Ok("ERROR: " + Str(client.exc))
    ensures apiKey != "" && client.Ok? ==> r == client.value(text)
  {
    if apiKey == "" then Raised(Exception(ValueError, MissingMistralKey))
    else match client
      case Raised(e) => Ok("ERROR: " + Str(e))
      case Ok(proofread) => proofread(text)
  }

  // ---------------------------------------------------------------------
  // extract_text_from_file

  /** `s.split(c)[-1]`: what follows the last `c`, or all of `s` when it has none. */
  function LastField(s: string, c: char): (r: string)
    ensures |r| <= |s| && r == s[|s| - |r|..]
    ensures c !in r
    ensures |r| < |s| ==> s[|s| - |r| - 1] == c
    decreases |s|
  {
    if s == [] then []
    else if s[|s| - 1] == c then []
    else LastField(s[..|s| - 1], c) + [s[|s| - 1]]
  }

  /** The three properties of `LastField` single it out: no other suffix has them. */
  lemma LastFieldUnique(s: string, c: char, t: string)
    requires |t| <= |s| && t == s[|s| - |t|..]
    requires c !in t
    requires |t| < |s| ==> s[|s| - |t| - 1] == c
    ensures t == LastField(s, c)
  {
  }

  /** `name.split(".")[-1].lower()` */
  function Extension(name: string): (r: string)
    ensures '.' !in r
  {
    assert forall i :: 0 <= i < |LastField(name, '.')| ==> LastField(name, '.')[i] != '.';
    Lower(LastField(name, '.'))
  }

  /** Where the extension sends a file: read as text, or OCR in a mode. */
  datatype Route = ReadText | RunOcr(mode: string)

  function RouteFor(ext: string): (r: Route)
    ensures r == ReadText <==> ext == "txt"
    ensures r.RunOcr? ==> (r.mode == "pdf" <==> ext == "pdf")
    ensures r.RunOcr? ==> DocumentFor(r.mode).Ok?
  {
    if ext == "txt" then ReadText
    else if ext == "pdf" then RunOcr("pdf")
    else RunOcr("image")
  }

  /** Upper-case and multi-dot names resolve by their last field; a name
      without a dot is its own extension and goes to image OCR. */
  lemma ExtensionExamples()
    ensures Extension("scan.PDF") == "pdf"
    ensures Extension("notes.v2.Txt") == "txt"
    ensures Extension("photo") == "photo"
    ensures RouteFor(Extension("archive.tar.gz")) == RunOcr("image")
  {
    UpperCaseExtension();
    MultiDotExtension();
    NoDotExtension();
    ArchiveExtension();
  }

  lemma UpperCaseExtension()
    ensures Extension("scan.PDF") == "pdf"
  {
    LastFieldUnique("scan.PDF", '.', "PDF");
    assert Lower("PDF") == "pdf";
  }

  lemma MultiDotExtension()
    ensures Extension("notes.v2.Txt") == "txt"
  {
    LastFieldUnique("notes.v2.Txt", '.', "Txt");
    assert Lower("Txt") == "txt";
  }

  lemma NoDotExtension()
    ensures Extension("photo") == "photo"
  {
    LastFieldUnique("photo", '.', "photo");
    assert Lower("photo") == "photo";
  }

  lemma ArchiveExtension()
    ensures Extension("archive.tar.gz") == "gz"
  {
    LastFieldUnique("archive.tar.gz", '.', "gz");
    assert Lower("gz") == "gz";
  }

  /** Whatever comes before the last dot, the extension is what follows it,
      lower-cased. */
  lemma {:induction false} ExtensionAfterLastDot(stem: string, ext: string)
    requires '.' !in ext
    ensures Extension(stem + "." + ext) == Lower(ext)
  {
    var s := stem + "." + ext;
    assert s[|s| - |ext|..] == ext;
    assert s[|s| - |ext| - 1] == '.';
    LastFieldUnique(s, '.', ext);
  }

  /** A name without a dot is its own extension, lower-cased. */
  lemma {:induction false} DotlessNameIsItsExtension(name: string)
    requires '.' !in name
    ensures Extension(name) == Lower(name)
  {
    assert name[|name| - |name|..] == name;
    LastFieldUnique(name, '.', name);
  }

  /** `extract_text_from_file(input_file, api_key)`: `file` is the uploaded
      file's name, if any; `readText` is what reading it as UTF-8 gives. */
  method ExtractTextFromFile(file: Option<string>, apiKey: string, readText: Outcome<string>,
                             client: Outcome<OcrClient>) returns (r: Outcome<string>)
    ensures file.None? || file.value == "" ==> r == Ok(NotFound)
    ensures file.Some? && file.value != "" && Extension(file.value) == "txt" ==> r == readText
    ensures file.Some? && file.value != "" && Extension(file.value) != "txt" ==>
      var ocr := OcrFromFile(file.value, apiKey, if Extension(file.value) == "pdf" then "pdf" else "image", client);
      (ocr.Raised? ==> r == Raised(ocr.exc)) &&
      (ocr.Ok? ==> r == Ok(Join(PageMarkdowns(ocr.value), PageSeparator)))
  {
    if file.None? || file.value == "" {
      return Ok(NotFound);
    }
    var name := file.value;
    match RouteFor(Extension(name))
    case ReadText =>
      r := readText;
    case RunOcr(mode) =>
      var response := OcrFromFile(name, apiKey, mode, client);
      if response.Raised? {
        r := Raised(response.exc);
      } else {
        var text := CombinedMarkdown(response.value);
        r := Ok(text);
      }
  }
}

/** src/process/ocr.py: the older helpers, which let a client construction
    failure propagate and have no guard on the file name. */
module LegacyOcr {
  import opened Common
  import opened Ocr

  const MissingKeyTypo := "Mistral API Key if required."

  function OcrFromFile(filePath: string, apiKey: string, mode: string, client: Outcome<OcrClient>): (r: Outcome<OcrResponse>)
    ensures apiKey == "" ==> r == Raised(Exception(ValueError, MissingMistralKey))
    ensures apiKey != "" && client.Raised? ==> r == Raised(client.exc)
    ensures apiKey != "" && client.Ok? ==> r == Process(client.value, filePath, mode)
  {
    if apiKey == "" then Raised(Exception(ValueError, MissingMistralKey))
    else match client
      case Raised(e) => Raised(e)
      case Ok(c) => Process(c, filePath, mode)
  }

  /** With a client built, the older and the newer `ocr_from_file` agree. */
  lemma AgreesWithBackend(filePath: string, apiKey: string, mode: string, c: OcrClient)
    ensures OcrFromFile(filePath, apiKey, mode, Ok(c)) == Ocr.OcrFromFile(filePath, apiKey, mode, Ok(c))
  {
  }

  function CorrectTextWithAi(text: string, apiKey: string, client: Outcome<Proofreader>): (r: Outcome<string>)
    ensures apiKey == "" ==> r == Raised(Exception(ValueError, MissingKeyTypo))
    ensures apiKey != "" && client.Raised? ==> r == Raised(client.exc)
    ensures apiKey != "" && client.Ok? ==> r == client.value(text)
  {
    if apiKey == "" then Raised(Exception(ValueError, MissingKeyTypo))
    else match client
      case Raised(e) => Raised(e)
      case Ok(proofread) => proofread(text)
  }

  /** `perform_raw_ocr(input_file, api_key)`: the same dispatch without the
      empty-name guard, so a name without an extension is sent to image OCR. */
  method PerformRawOcr(name: string, apiKey: string, readText: Outcome<string>,
                       client: Outcome<OcrClient>) returns (r: Outcome<string>)
    ensures Extension(name) == "txt" ==> r == readText
    ensures Extension(name) != "txt" ==>
      var ocr := OcrFromFile(name, apiKey, if Extension(name) == "pdf" then "pdf" else "image", client);
      (ocr.Raised? ==> r == Raised(ocr.exc)) &&
      (ocr.Ok? ==> r == Ok(Join(PageMarkdowns(ocr.value), PageSeparator)))
  {
    match RouteFor(Extension(name))
    case ReadText =>
      r := readText;
    case RunOcr(mode) =>
      var response := OcrFromFile(name, apiKey, mode, client);
      if response.Raised? {
        r := Raised(response.exc);
      } else {
        var text := CombinedMarkdown(response.value);
        r := Ok(text);
      }
  }
}
