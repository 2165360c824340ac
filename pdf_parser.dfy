/**
 * Text extraction from a PDF file (utils/pdf_parser.py).
 *
 * The file system and the PDF library are abstracted into a `PdfFile`
 * value: whether the path exists, whether the file opens and parses as a
 * PDF, whether it is encrypted, and what extracting each page produced.
 */
module PdfParser {
  import opened Results
  import opened Text

  /** What `page.extract_text()` did for one page. */
  datatype PageOutcome =
    | Extracted(text: string)  // returned a string, possibly empty
    | NoText                   // returned None
    | Raised                   // raised an exception

  /** Everything the parser observes about the file at `path`. */
  datatype PdfFile = PdfFile(
    present: bool,             // os.path.exists(path)
    path: string,
    readable: bool,            // open() and PdfReader() succeed
    encrypted: bool,           // reader.is_encrypted
    pages: seq<PageOutcome>)   // reader.pages, in order

  /** Why a `PDFParsingError` was raised. */
  datatype ParsingFailure =
    | NotPdf           // the name does not end in ".pdf"
    | Unreadable       // the reader could not be built (PdfReadError or another exception)
    | Encrypted        // the document is password protected
    | NoTextExtracted  // no page produced any text

  /** The only two exceptions `extract_text_from_pdf` lets escape. */
  datatype PdfError = FileNotFound(path: string) | PdfParsingError(reason: ParsingFailure)

  const PageSeparator := "\n"

  /** The extension test: the lower-cased path ends in ".pdf". */
  predicate HasPdfExtension(path: string)
  {
    EndsWith(Lower(path), ".pdf")
  }

  /** The extension test looks at the last four characters only, and
      ignores the case of the letters. */
  lemma PdfExtensionChars(path: string)
    ensures HasPdfExtension(path) <==>
      |path| >= 4 &&
      path[|path| - 4] == '.' &&
      path[|path| - 3] in "pP" &&
      path[|path| - 2] in "dD" &&
      path[|path| - 1] in "fF"
  {
  }

  /** Paths that differ only in the case of ASCII letters pass or fail the
      extension test together; "report.PDF" passes like "report.pdf". */
  lemma PdfExtensionIgnoresCase(p: string, q: string)
    requires Lower(p) == Lower(q)
    ensures HasPdfExtension(p) == HasPdfExtension(q)
  {
  }

  /** A page contributes text when extraction returned a non-empty string. */
  predicate Kept(page: PageOutcome)
  {
    page.Extracted? && page.text != ""
  }

  /** The texts of the pages that contributed, in page order. */
  function KeptTexts(pages: seq<PageOutcome>): (r: seq<string>)
    ensures |r| <= |pages|
    ensures forall k :: 0 <= k < |r| ==> r[k] != ""
  {
    if pages == [] then []
    else
      var last := pages[|pages| - 1];
      KeptTexts(pages[..|pages| - 1]) + (if Kept(last) then [last.text] else [])
  }

  /** Filtering distributes over concatenation: the kept texts of the first
      pages come before those of the later pages, in their original order. */
  lemma {:induction false} KeptTextsConcat(a: seq<PageOutcome>, b: seq<PageOutcome>)
    ensures KeptTexts(a + b) == KeptTexts(a) + KeptTexts(b)
  {
    if b == [] {
      assert a + b == a;
    } else {
      var last := b[|b| - 1];
      assert (a + b)[..|a + b| - 1] == a + b[..|b| - 1];
      KeptTextsConcat(a, b[..|b| - 1]);
    }
  }

  /** No text is kept exactly when no page produced a non-empty string. */
  lemma {:induction false} KeptTextsEmpty(pages: seq<PageOutcome>)
    ensures KeptTexts(pages) == [] <==> forall k :: 0 <= k < |pages| ==> !Kept(pages[k])
  {
    if pages != [] {
      KeptTextsEmpty(pages[..|pages| - 1]);
    }
  }

  /** Every kept text is the text of some page that produced one. */
  lemma {:induction false} KeptTextsFromPages(pages: seq<PageOutcome>, t: string)
    requires t in KeptTexts(pages)
    ensures exists k :: 0 <= k < |pages| && Kept(pages[k]) && pages[k].text == t
  {
    var init := pages[..|pages| - 1];
    if t in KeptTexts(init) {
      KeptTextsFromPages(init, t);
      var k :| 0 <= k < |init| && Kept(init[k]) && init[k].text == t;
      assert pages[k] == init[k];
    }
  }

  /** Every page that produced a non-empty string has its text among the
      kept texts: the filter drops nothing it should keep. */
  lemma KeptPageAppears(pages: seq<PageOutcome>, k: nat)
    requires k < |pages| && Kept(pages[k])
    ensures pages[k].text in KeptTexts(pages)
  {
    var single := [pages[k]];
    assert single[..0] == [];
    assert pages == pages[..k] + single + pages[k + 1..];
    KeptTextsConcat(pages[..k] + single, pages[k + 1..]);
    KeptTextsConcat(pages[..k], single);
  }

  /** What `extract_text_from_pdf` returns or raises, check by check. Only
      a missing path is reported as not found; an encrypted document never
      yields text; a success is non-empty and starts with the text of the
      first page that produced any. */
  function ExtractText(f: PdfFile): (r: Result<string, PdfError>)
    ensures r == Err(FileNotFound(f.path)) <==> !f.present
    ensures f.encrypted ==> r.Err?
    ensures r.Ok? ==> KeptTexts(f.pages) != [] && KeptTexts(f.pages)[0] <= r.value && r.value != ""
  {
    if !f.present then Err(FileNotFound(f.path))
    else if !HasPdfExtension(f.path) then Err(PdfParsingError(NotPdf))
    else if !f.readable then Err(PdfParsingError(Unreadable))
    else if f.encrypted then Err(PdfParsingError(Encrypted))
    else if KeptTexts(f.pages) == [] then Err(PdfParsingError(NoTextExtracted))
    else
      var kept := KeptTexts(f.pages);
      JoinEnds(PageSeparator, kept);
      Ok(Join(PageSeparator, kept))
  }

  /** `extract_text_from_pdf`: the guards in order, then one pass over the
      pages that collects every non-empty text and skips the rest. */
  method ExtractTextFromPdf(f: PdfFile) returns (r: Result<string, PdfError>)
    ensures r == ExtractText(f)
    ensures r.Ok? ==> r.value != ""
    ensures r == Err(FileNotFound(f.path)) <==> !f.present
  {
    if !f.present {
      return Err(FileNotFound(f.path));
    }
    if !HasPdfExtension(f.path) {
      return Err(PdfParsingError(NotPdf));
    }
    if !f.readable {
      return Err(PdfParsingError(Unreadable));
    }
    if f.encrypted {
      return Err(PdfParsingError(Encrypted));
    }
    var textContent: seq<string> := [];
    for i := 0 to |f.pages|
      invariant textContent == KeptTexts(f.pages[..i])
    {
      assert f.pages[..i + 1][..i] == f.pages[..i];
      match f.pages[i]
      case Extracted(pageText) =>
        if pageText == "" {
          continue;
        }
        textContent := textContent + [pageText];
      case NoText =>
        continue;
      case Raised =>
        continue;
    }
    assert f.pages[..|f.pages|] == f.pages;
    if textContent == [] {
      return Err(PdfParsingError(NoTextExtracted));
    }
    JoinEnds(PageSeparator, textContent);
    r := Ok(Join(PageSeparator, textContent));
  }

  /** A missing file is reported as not found whatever its name, so the
      extension is never looked at first. */
  lemma MissingBeforeExtension(f: PdfFile)
    requires !f.present
    ensures ExtractText(f) == Err(FileNotFound(f.path))
  {
  }

  /** Extraction succeeds exactly when the file is a valid, unencrypted PDF
      with at least one page that yields text. */
  lemma ExtractTextSucceeds(f: PdfFile)
    ensures ExtractText(f).Ok? <==>
      IsValidPdf(f) && !f.encrypted && exists k :: 0 <= k < |f.pages| && Kept(f.pages[k])
  {
    KeptTextsEmpty(f.pages);
  }

  /** On success the text is the kept pages joined by single newlines: it
      begins with the first kept page, ends with the last, and splitting it
      on newlines gives back the kept pages whenever none of them contains
      a newline. */
  lemma ExtractTextShape(f: PdfFile)
    requires ExtractText(f).Ok?
    ensures var kept := KeptTexts(f.pages);
      var text := ExtractText(f).value;
      kept != [] &&
      kept[0] <= text &&
      |kept[|kept| - 1]| <= |text| &&
      text[|text| - |kept[|kept| - 1]|..] == kept[|kept| - 1] &&
      (|kept| == 1 ==> text == kept[0]) &&
      ((forall k :: 0 <= k < |kept| ==> '\n' !in kept[k]) ==> Split(text, '\n') == kept)
  {
    var kept := KeptTexts(f.pages);
    JoinEnds(PageSeparator, kept);
    if forall k :: 0 <= k < |kept| ==> '\n' !in kept[k] {
      SplitJoin(kept, '\n');
    }
  }

  /** A three-page document whose middle page gives no text yields the
      first and third pages' texts separated by one newline. */
  lemma MiddlePageSkipped(f: PdfFile, first: string, middle: PageOutcome, third: string)
    requires f.present && HasPdfExtension(f.path) && f.readable && !f.encrypted
    requires f.pages == [Extracted(first), middle, Extracted(third)]
    requires first != "" && third != "" && !Kept(middle)
    ensures ExtractText(f) == Ok(first + "\n" + third)
  {
    var one := [Extracted(first)];
    assert one[..0] == [];
    assert KeptTexts(one) == [first];
    var two := one + [middle];
    assert two[..1] == one;
    assert KeptTexts(two) == [first];
    assert f.pages[..2] == two;
    assert KeptTexts(f.pages) == [first, third];
    assert [first, third][1..] == [third];
    assert Join(PageSeparator, [first, third]) == first + "\n" + third;
  }

  /** `is_valid_pdf`: a total check that never raises. A file it accepts
      can still fail to extract only for being encrypted or for yielding no
      text; a file it rejects never extracts. */
  predicate IsValidPdf(f: PdfFile)
    ensures IsValidPdf(f) ==>
      ExtractText(f).Ok? ||
      ExtractText(f) == Err(PdfParsingError(Encrypted)) ||
      ExtractText(f) == Err(PdfParsingError(NoTextExtracted))
    ensures !IsValidPdf(f) ==> ExtractText(f).Err?
  {
    f.present && HasPdfExtension(f.path) && f.readable
  }

  /** `is_valid_pdf` rejects exactly the files that extraction refuses
      before it looks at encryption or at the pages: a missing path, a name
      without the ".pdf" extension, or a file the reader cannot open. */
  lemma ValidityAndExtraction(f: PdfFile)
    ensures ExtractText(f).Ok? ==> IsValidPdf(f)
    ensures !IsValidPdf(f) <==>
      ExtractText(f) == Err(FileNotFound(f.path)) ||
      ExtractText(f) == Err(PdfParsingError(NotPdf)) ||
      ExtractText(f) == Err(PdfParsingError(Unreadable))
  {
  }
}
