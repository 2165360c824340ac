# Investigation planner: PDF extraction and methodology index, in Dafny

A model of the two pieces of logic the case-investigation planning assistant
writes itself, with the PDF library, the text splitter, the embedding
service and the FAISS vector store abstracted away:

- **PDF text extraction** (`utils/pdf_parser.py`, module `PdfParser` in
  `pdf_parser.dfy`). The file and the PDF reader are one `PdfFile` value:
  whether the path exists, whether the file opens and parses, whether it is
  encrypted, and what extracting each page gave (a string, `None`, or an
  exception). `ExtractTextFromPdf` runs the source's checks in the same
  order (existence, then a case-insensitive `.pdf` extension, then the
  reader, then encryption) and then walks the pages, keeping only those
  with non-empty text, and joins them with single newlines. It is proved
  equal to the specification function `ExtractText`. The lemmas state the
  error cases, the success condition, the order of the kept pages and the
  shape of the joined text. `IsValidPdf` is the total validity check.
- **Methodology index handler** (`utils/methodology_handler.py`, module
  `Methodology` in `methodology_handler.dfy`). This is a class
  `MethodologyHandler` with one mutable field, `vectorStore: Option<VectorStore>`.
  - `ProcessMethodology` tags the splitter's chunks (`TagChunks`) and
    replaces the store.
  - `FindRelevantRecommendations` refuses to run without a store and asks
    for `k = topK`, `fetch_k = 2 * topK`.
  - `GetRecommendationsContext` formats the found documents (`FormatContext`)
    as a fixed header followed by entries numbered from 1.
  - `SaveIndex` and `LoadIndex` are guarded by the store and by the path.
  - The splitter, the embedding step and the MMR search are function
    parameters whose results carry no promise. The disk is a map from paths
    to what they hold, passed in and returned.

`text.dfy` (module `Text`) holds the Python string behaviour the two modules
rely on: `sep.join`, splitting on one character, ASCII `lower()`, `endswith`
and the decimal rendering of integers in f-strings. `results.dfy` holds
`Result` and `Option`.

Two points of the source that the model keeps as they are:
- Every extraction failure other than a missing file raises one exception
  type, `PDFParsingError` (utils/pdf_parser.py:41, 53, 75, 79, 96). The
  model keeps that type and records the reason (`NotPdf`, `Unreadable`,
  `Encrypted`, `NoTextExtracted`).
- `process_methodology` replaces `vector_store` whenever
  `FAISS.from_documents` returns (utils/methodology_handler.py:61), whatever
  the number of chunks. Whether the library raises for an empty chunk list
  is not visible in the source and is left to the `indexes` parameter.

## Model

| member | source | states |
|---|---|---|
| Text.JoinAppend | utils/pdf_parser.py:82 | adding one more page text to a non-empty list adds exactly one newline before it |
| Text.JoinEnds | utils/pdf_parser.py:82 | the joined text starts with the first part and ends with the last one: no leading or trailing separator |
| Text.SplitJoin | utils/pdf_parser.py:82 | splitting the joined text on the separator gives back the parts when none contains it: the join neither loses nor adds text |
| Text.NatToString | utils/methodology_handler.py:100-102 | the rendered entry number or chunk id is a non-empty string of digits with no leading zero |
| Text.NatToStringRoundTrip | utils/methodology_handler.py:100-102 | reading the rendered digits back gives the number |
| Text.IntToString | utils/methodology_handler.py:102 | an integer renders as a non-empty string of digits, with a leading minus sign exactly when it is negative |
| Text.NatToStringInjective | utils/methodology_handler.py:100-102 | two different entry numbers never render the same |
| Text.IntToStringInjective | utils/methodology_handler.py:102 | two different integer chunk ids (the only kind `process_methodology` writes) never render the same |
| PdfParser.PdfExtensionChars | utils/pdf_parser.py:40-41 | the extension test accepts exactly the names whose last four characters are `.`, `p`/`P`, `d`/`D`, `f`/`F` |
| PdfParser.PdfExtensionIgnoresCase | utils/pdf_parser.py:40-41 | names that differ only in letter case pass or fail the extension test together |
| PdfParser.KeptTexts | utils/pdf_parser.py:59-72 | the kept texts are all non-empty, and there are no more of them than pages |
| PdfParser.KeptTextsConcat | utils/pdf_parser.py:59-72 | filtering distributes over concatenation, so kept pages keep their original relative order |
| PdfParser.KeptTextsEmpty | utils/pdf_parser.py:64-79 | nothing is kept exactly when no page produced a non-empty string |
| PdfParser.KeptTextsFromPages | utils/pdf_parser.py:59-72 | every kept text is the text of some page that produced it |
| PdfParser.KeptPageAppears | utils/pdf_parser.py:59-72 | conversely, the text of every page that produced a non-empty string is kept |
| PdfParser.ExtractText | utils/pdf_parser.py:20-96 | only a missing path is reported as not found; an encrypted document never yields text; a success is non-empty and starts with the first kept page's text |
| PdfParser.ExtractTextFromPdf | utils/pdf_parser.py:20-96 | the loop over the pages computes `ExtractText`; a success is non-empty; the error is file-not-found exactly when the path does not exist |
| PdfParser.MissingBeforeExtension | utils/pdf_parser.py:36-41 | a missing path is reported as not found whatever its extension |
| PdfParser.ExtractTextSucceeds | utils/pdf_parser.py:34-85 | extraction succeeds exactly for a valid, unencrypted PDF with at least one page that yields text |
| PdfParser.ExtractTextShape | utils/pdf_parser.py:78-82 | a successful result begins with the first kept page and ends with the last; with one kept page it is that page's text; splitting on newlines recovers the pages when they contain none |
| PdfParser.MiddlePageSkipped | utils/pdf_parser.py:59-82 | a three-page file whose middle page gives no text yields the first and third texts joined by one newline |
| PdfParser.IsValidPdf | utils/pdf_parser.py:130-154 | a file the total check rejects never extracts; a file it accepts fails to extract only for being encrypted or yielding no text |
| PdfParser.ValidityAndExtraction | utils/pdf_parser.py:130-154 | `is_valid_pdf` rejects exactly the files that extraction refuses as missing, not `.pdf` or unreadable, and accepts every file that extracts |
| Methodology.ChunkDocs | utils/methodology_handler.py:50-58 | one document per chunk, in order, with the chunk's text and its position as `chunk_id` |
| Methodology.TagChunks | utils/methodology_handler.py:53-58 | chunk `i` gets exactly the metadata `chunk_id = i`, `source = "methodology"`, `chunk_size = len(text)`; any old metadata is gone; texts and order are kept |
| Methodology.ChunkDocsTagged | utils/methodology_handler.py:53-58 | every document of a processed methodology carries its own position, the source tag and its length |
| Methodology.RecommendationsContext | utils/methodology_handler.py:96-104 | the context starts with the header; with no documents it is the header alone; it fails with the KeyError only when some document has no chunk id |
| Methodology.FormatContext | utils/methodology_handler.py:98-104 | the formatting loop computes `RecommendationsContext`: the header and then one entry per document, or the KeyError for a document with no chunk id |
| Methodology.EnumeratedConcat | utils/methodology_handler.py:100-102 | numbering continues across a split of the found documents: entries keep the documents' order |
| Methodology.EnumeratedAt | utils/methodology_handler.py:100-102 | the entry for the document at position `k` is numbered `k + 1` and sits between the entries before and after it |
| Methodology.ChunkEntry | utils/methodology_handler.py:102 | the entry for chunk `i` of a processed methodology reads `<n>. [Часть <i>] <text>` followed by a blank line |
| Methodology.ContextOfChunks | utils/methodology_handler.py:96-104 | formatting documents that come from a processed methodology never fails for a missing chunk id |
| Methodology.SavedIndexes | utils/methodology_handler.py:106-113 | saving with a store makes the path exist; without one the disk is unchanged; no other path changes |
| Methodology.LoadedIndex | utils/methodology_handler.py:115-124 | loading fails as not found exactly when the path does not exist; a success is the index saved at the path |
| Methodology.SaveThenLoad | utils/methodology_handler.py:106-124 | loading from the path just saved to gives back the saved store; saving without a store leaves the disk unchanged |
| Methodology.MethodologyHandler.constructor | utils/methodology_handler.py:11-38 | a new handler has no store, the `text-embedding-3-small` model and a splitter of size 1000, overlap 200 and the six separators |
| Methodology.MethodologyHandler.ProcessMethodology | utils/methodology_handler.py:40-67 | on success returns the number of chunks and makes the tagged chunks the active store; on an indexing failure reports it and keeps the old store |
| Methodology.MethodologyHandler.FindRelevantRecommendations | utils/methodology_handler.py:69-86 | fails with the ValueError exactly when there is no store; otherwise returns the result of the search for `k = topK` and `fetch_k = 2 * topK`, or its failure, with `topK` defaulting to 3 |
| Methodology.MethodologyHandler.GetRecommendationsContext | utils/methodology_handler.py:88-104 | without a store fails with the ValueError; otherwise passes on a failure of the search with `k = 3`, `fetch_k = 6`, or formats its results; a success starts with the header |
| Methodology.MethodologyHandler.SaveIndex | utils/methodology_handler.py:106-113 | with no store the disk is unchanged; with one, the store can be loaded back from the path |
| Methodology.MethodologyHandler.LoadIndex | utils/methodology_handler.py:115-124 | a missing path gives FileNotFoundError and leaves the store unchanged; otherwise the index saved there becomes the store |

## Left out

- `streamlit_app.py`: the user interface, session state, file uploads, the result JSON and the two prompt wrappers around the OpenAI client (`extract_facts`, `create_investigation_plan`) are external I/O and foreign calls.
- `get_pdf_metadata`: it only passes library fields and the file size through.
- PyPDF2 itself: parsing, `extract_text` and `is_encrypted` are inputs of the model (`PdfFile`), not computed.
- An exception raised while iterating over `reader.pages` itself, outside the per-page `try`, also becomes `PDFParsingError` in the source. The model has no such outcome: each page's failure is per page.
- Error messages and logging: the Russian message texts and the log lines are not modelled; the error variants carry the reason instead.
- `str.lower()` is modelled for ASCII letters only. No other character lowercases to `.`, `p`, `d` or `f`, so the `.pdf` test is unaffected.
- The chunking algorithm of `RecursiveCharacterTextSplitter`: only its constructor settings appear. Its output is an arbitrary sequence of chunks, so nothing is claimed about chunk sizes, overlap or coverage.
- Embeddings, FAISS index construction and maximal-marginal-relevance search are foreign calls over floating point. The search result is an arbitrary sequence of documents or a failure (the query embedding can raise). Building the index is reduced to whether it succeeds.
- LoadIndex: loading a directory that `save_index` wrote is assumed to succeed. `FAISS.load_local` may refuse it for reasons outside the source, such as a library version that requires `allow_dangerous_deserialization=True`. SaveThenLoad is a round trip in the disk-map model only, for the same reason.
- The on-disk layout of `save_local`/`load_local` is left out. A saved index is one entry in the disk map. Failures of `save_local` itself and path normalisation are not modelled.
- The `os.environ` update in the constructor and the `print` before re-raising in `process_methodology` are side effects with no bearing on results.
- Metadata values other than integers and strings are not modelled. A loaded index with another kind of `chunk_id` is outside the model.
- Documents are values: the source mutates each `Document`'s metadata in place, but the list is fresh from the splitter and not shared, so only the resulting values are modelled, not object identity.
