/**
 * The methodology index handler (utils/methodology_handler.py).
 *
 * The handler owns at most one vector store. The text splitter, the
 * embedding service, the FAISS index and its maximal-marginal-relevance
 * search are library code: they enter the model as function parameters
 * whose results carry no promise beyond their length and order.
 */
module Methodology {
  import opened Results
  import opened Text

  /** The splitter settings fixed in the handler's constructor. */
  const ChunkSize := 1000
  const ChunkOverlap := 200
  const Separators: seq<string> := ["\n\n", "\n", ". ", ", ", " ", ""]
  const EmbeddingModel := "text-embedding-3-small"

  /** The `source` tag written on every chunk. */
  const SourceTag := "methodology"
  /** How many recommendations are asked for when the caller names no number. */
  const DefaultTopK := 3
  /** The fixed first line of every recommendations context. */
  const ContextHeader := "На основе методических рекомендаций:\n\n"

  datatype SplitterConfig = SplitterConfig(chunkSize: nat, chunkOverlap: nat, separators: seq<string>)

  /** A metadata value: the handler only ever writes integers and strings. */
  datatype MetaValue = IntValue(i: int) | StrValue(s: string)

  type Metadata = map<string, MetaValue>

  /** A langchain `Document`: a chunk of text with its metadata. */
  datatype Doc = Doc(pageContent: string, metadata: Metadata)

  /** A vector store, seen through the documents it indexes; the embedding
      vectors themselves are abstracted away. */
  datatype VectorStore = VectorStore(docs: seq<Doc>)

  /** The arguments of one `max_marginal_relevance_search` call. */
  datatype SearchRequest = SearchRequest(query: string, k: int, fetchK: int)

  /** What sits at a path on disk, as far as loading an index cares. */
  datatype DiskEntry = SavedIndex(store: VectorStore) | OtherEntry

  /** The file system: the paths that exist and what they hold. */
  type Disk = map<string, DiskEntry>

  /** The exceptions the handler's operations raise. */
  datatype HandlerError =
    | NoVectorStore          // ValueError: no methodology processed or loaded yet
    | IndexNotFound(path: string)  // FileNotFoundError from load_index
    | MissingChunkId         // KeyError: a found document has no "chunk_id"
    | IndexBuildFailed       // the embedding or indexing library raised
    | IndexUnreadable        // the library could not load what is at the path
    | SearchFailed           // the search (embedding the query) raised

  /** The metadata `process_methodology` gives the chunk at position `i`. */
  function ChunkMetadata(i: nat, content: string): Metadata
  {
    map["chunk_id" := IntValue(i), "source" := StrValue(SourceTag), "chunk_size" := IntValue(|content|)]
  }

  /** The documents of a processed methodology: chunk `i` carries its text
      and exactly the metadata for position `i`. */
  function ChunkDocs(chunks: seq<string>): (docs: seq<Doc>)
    ensures |docs| == |chunks|
    ensures forall i :: 0 <= i < |docs| ==>
      docs[i].pageContent == chunks[i] &&
      "chunk_id" in docs[i].metadata && docs[i].metadata["chunk_id"] == IntValue(i)
  {
    seq(|chunks|, i requires 0 <= i < |chunks| => Doc(chunks[i], ChunkMetadata(i, chunks[i])))
  }

  /** The tagging loop of `process_methodology`: every document's metadata
      is replaced by the one for its position; texts and order are kept. */
  method TagChunks(docs: seq<Doc>) returns (tagged: seq<Doc>)
    ensures |tagged| == |docs|
    ensures forall i :: 0 <= i < |docs| ==>
      tagged[i].pageContent == docs[i].pageContent &&
      tagged[i].metadata == ChunkMetadata(i, docs[i].pageContent)
  {
    tagged := docs;
    for i := 0 to |docs|
      invariant |tagged| == |docs|
      invariant forall j :: 0 <= j < i ==>
        tagged[j] == Doc(docs[j].pageContent, ChunkMetadata(j, docs[j].pageContent))
      invariant forall j :: i <= j < |docs| ==> tagged[j] == docs[j]
    {
      tagged := tagged[i := tagged[i].(metadata := ChunkMetadata(i, tagged[i].pageContent))];
    }
  }

  /** Every document of a processed methodology names its own position as
      its chunk id, its tag as source, and its length as size. */
  lemma ChunkDocsTagged(chunks: seq<string>, d: Doc)
    requires d in ChunkDocs(chunks)
    ensures exists i :: (0 <= i < |chunks| && d.pageContent == chunks[i] &&
      d.metadata["chunk_id"] == IntValue(i) &&
      d.metadata["source"] == StrValue(SourceTag) &&
      d.metadata["chunk_size"] == IntValue(|d.pageContent|))
  {
  }

  /** How an f-string renders a metadata value. */
  function Render(v: MetaValue): string
  {
    match v
    case IntValue(i) => IntToString(i)
    case StrValue(s) => s
  }

  predicate HasChunkId(d: Doc)
  {
    "chunk_id" in d.metadata
  }

  /** Every document can be formatted: none of them lacks a chunk id. */
  predicate AllHaveChunkId(docs: seq<Doc>)
  {
    forall k :: 0 <= k < |docs| ==> HasChunkId(docs[k])
  }

  /** How the chunk id of a document appears in its entry; only asked of
      documents that have one. */
  function ChunkLabel(d: Doc): string
  {
    if HasChunkId(d) then Render(d.metadata["chunk_id"]) else ""
  }

  /** One entry of the recommendations context, numbered `n`. */
  function Entry(n: int, d: Doc): string
  {
    IntToString(n) + ". [Часть " + ChunkLabel(d) + "] " + d.pageContent + "\n\n"
  }

  /** What a loop that enumerates `docs` from `first` appends when it adds
      `render(number, doc)` for each document: one text per document, in
      order, numbered from `first` on. */
  function Enumerated(docs: seq<Doc>, first: int, render: (int, Doc) -> string): string
  {
    if docs == [] then ""
    else Enumerated(docs[..|docs| - 1], first, render) + render(first + |docs| - 1, docs[|docs| - 1])
  }

  /** Numbering runs on across a split: the texts for `a + b` are those for
      `a` followed by those for `b`, numbered after the last of `a`. */
  lemma {:induction false} EnumeratedConcat(a: seq<Doc>, b: seq<Doc>, first: int, render: (int, Doc) -> string)
    ensures Enumerated(a + b, first, render) ==
      Enumerated(a, first, render) + Enumerated(b, first + |a|, render)
  {
    if b == [] {
      assert a + b == a;
    } else {
      var init, last := b[..|b| - 1], b[|b| - 1];
      var ab := a + b;
      assert ab[..|ab| - 1] == a + init;
      assert ab[|ab| - 1] == last;
      var e := render(first + |ab| - 1, last);
      EnumeratedConcat(a, init, first, render);
      calc {
        Enumerated(ab, first, render);
        Enumerated(a + init, first, render) + e;
        (Enumerated(a, first, render) + Enumerated(init, first + |a|, render)) + e;
        Enumerated(a, first, render) + (Enumerated(init, first + |a|, render) + e);
        Enumerated(a, first, render) + Enumerated(b, first + |a|, render);
      }
    }
  }

  /** The entries for `docs`, numbered from 1. */
  function Entries(docs: seq<Doc>): string
  {
    Enumerated(docs, 1, Entry)
  }

  /** What `get_recommendations_context` builds from the documents found:
      the header, then one entry per document numbered from 1; a document
      without a chunk id raises KeyError and nothing is returned. */
  function RecommendationsContext(docs: seq<Doc>): (r: Result<string, HandlerError>)
    ensures r.Ok? ==> ContextHeader <= r.value
    ensures docs == [] ==> r == Ok(ContextHeader)
    ensures r.Err? ==>
      r.error == MissingChunkId && exists k :: 0 <= k < |docs| && !HasChunkId(docs[k])
  {
    if AllHaveChunkId(docs) then
      assert Entries([]) == "" && ContextHeader + "" == ContextHeader;
      Ok(ContextHeader + Entries(docs))
    else Err(MissingChunkId)
  }

  /** The formatting loop of `get_recommendations_context`: start from the
      header and append one numbered entry per document, in order. */
  method FormatContext(docs: seq<Doc>) returns (r: Result<string, HandlerError>)
    ensures r == RecommendationsContext(docs)
  {
    var context := ContextHeader;
    for i := 0 to |docs|
      invariant forall j :: 0 <= j < i ==> HasChunkId(docs[j])
      invariant context == ContextHeader + Entries(docs[..i])
    {
      if !HasChunkId(docs[i]) {
        return Err(MissingChunkId);
      }
      assert docs[..i + 1][..i] == docs[..i];
      context := context + Entry(i + 1, docs[i]);
    }
    assert docs[..|docs|] == docs;
    r := Ok(context);
  }

  /** The text for position `k` (from 0) is numbered `first + k`, between
      the texts for the documents before it and those after it; in the
      recommendations context, where `first` is 1, entry `k` is numbered
      `k + 1`. */
  lemma EnumeratedAt(docs: seq<Doc>, k: nat, first: int, render: (int, Doc) -> string)
    requires k < |docs|
    ensures Enumerated(docs, first, render) ==
      Enumerated(docs[..k], first, render) + render(first + k, docs[k]) +
      Enumerated(docs[k + 1..], first + k + 1, render)
  {
    var upTo := docs[..k] + [docs[k]];
    assert docs == upTo + docs[k + 1..];
    EnumeratedConcat(upTo, docs[k + 1..], first, render);
    assert upTo[..k] == docs[..k];
  }

  /** The entry for chunk `i` of a processed methodology quotes `i` as the
      chunk id, whatever number the entry itself has. */
  lemma ChunkEntry(chunks: seq<string>, i: nat, n: int)
    requires i < |chunks|
    ensures HasChunkId(ChunkDocs(chunks)[i])
    ensures Entry(n, ChunkDocs(chunks)[i]) ==
      IntToString(n) + ". [Часть " + NatToString(i) + "] " + chunks[i] + "\n\n"
  {
  }

  /** The context for documents that all come from a processed methodology
      never fails with a missing chunk id. */
  lemma ContextOfChunks(chunks: seq<string>, found: seq<Doc>)
    requires forall d :: d in found ==> d in ChunkDocs(chunks)
    ensures RecommendationsContext(found).Ok?
  {
    forall d | d in found ensures HasChunkId(d) {
      ChunkDocsTagged(chunks, d);
    }
  }

  /** The disk after `save_index(path)` with the given store. */
  function SavedIndexes(store: Option<VectorStore>, path: string, disk: Disk): (disk': Disk)
    ensures store.Some? ==> path in disk'
    ensures store.None? ==> disk' == disk
    ensures forall p :: p != path ==> (p in disk' <==> p in disk)
    ensures forall p :: p != path && p in disk ==> disk'[p] == disk[p]
  {
    if store.Some? then disk[path := SavedIndex(store.value)] else disk
  }

  /** What `load_index(path)` loads, or why it fails. */
  function LoadedIndex(disk: Disk, path: string): (r: Result<VectorStore, HandlerError>)
    ensures r == Err(IndexNotFound(path)) <==> path !in disk
    ensures r.Ok? ==> path in disk && disk[path] == SavedIndex(r.value)
  {
    if path !in disk then Err(IndexNotFound(path))
    else match disk[path]
      case SavedIndex(store) => Ok(store)
      case OtherEntry => Err(IndexUnreadable)
  }

  /** Loading what was just saved gives back the same store, and saving
      without a store leaves the disk as it was. */
  lemma SaveThenLoad(store: Option<VectorStore>, path: string, disk: Disk)
    ensures store.Some? ==> LoadedIndex(SavedIndexes(store, path, disk), path) == Ok(store.value)
    ensures store.None? ==> SavedIndexes(store, path, disk) == disk
  {
  }

  class MethodologyHandler {
    const embeddingModel: string
    const textSplitter: SplitterConfig
    /** The active index; `None` until a methodology is processed or loaded. */
    var vectorStore: Option<VectorStore>

    /** A new handler has its splitter and embedding model set and no store.
        The API key only goes to the embedding service, which is not modelled. */
    constructor (apiKey: string)
      ensures vectorStore == None
      ensures embeddingModel == EmbeddingModel
      ensures textSplitter == SplitterConfig(ChunkSize, ChunkOverlap, Separators)
    {
      embeddingModel := EmbeddingModel;
      textSplitter := SplitterConfig(ChunkSize, ChunkOverlap, Separators);
      vectorStore := None;
    }

    /** `process_methodology`: split the text, tag the chunks, index them and
        make the new index the active one. `split` is the configured splitter;
        `indexes` says whether embedding and indexing these documents succeed.
        On failure the exception propagates and the old store stays. */
    method ProcessMethodology(
      methodologyText: string,
      split: (SplitterConfig, string) -> seq<string>,
      indexes: seq<Doc> -> bool)
      returns (r: Result<nat, HandlerError>)
      modifies this
      ensures var chunks := split(textSplitter, methodologyText);
        if indexes(ChunkDocs(chunks)) then
          r == Ok(|chunks|) && vectorStore == Some(VectorStore(ChunkDocs(chunks)))
        else
          r == Err(IndexBuildFailed) && vectorStore == old(vectorStore)
    {
      var chunks := split(textSplitter, methodologyText);
      var documents := seq(|chunks|, i requires 0 <= i < |chunks| => Doc(chunks[i], map[]));
      documents := TagChunks(documents);
      assert documents == ChunkDocs(chunks);
      if !indexes(documents) {
        return Err(IndexBuildFailed);
      }
      vectorStore := Some(VectorStore(documents));
      r := Ok(|documents|);
    }

    /** `find_relevant_recommendations`: refuses to run without a store;
        otherwise asks the store for `topK` results out of `2 * topK`
        candidates and returns what the search gives, or its failure.
        `search` gives `None` when the search raises. */
    function FindRelevantRecommendations(
      query: string,
      search: (VectorStore, SearchRequest) -> Option<seq<Doc>>,
      topK: int := DefaultTopK)
      : (r: Result<seq<Doc>, HandlerError>)
      reads this
      ensures r == Err(NoVectorStore) <==> vectorStore.None?
      ensures r.Err? ==> r.error == NoVectorStore || r.error == SearchFailed
      ensures vectorStore.Some? ==>
        r == match search(vectorStore.value, SearchRequest(query, topK, 2 * topK))
             case Some(found) => Ok(found)
             case None => Err(SearchFailed)
    {
      if vectorStore.None? then Err(NoVectorStore)
      else
        var req := SearchRequest(query, topK, topK * 2);
        match search(vectorStore.value, req)
        case Some(found) => Ok(found)
        case None => Err(SearchFailed)
    }

    /** `get_recommendations_context`: find the default number of
        recommendations for the facts and append one numbered entry per
        document to the header. */
    method GetRecommendationsContext(
      caseFacts: string,
      search: (VectorStore, SearchRequest) -> Option<seq<Doc>>)
      returns (r: Result<string, HandlerError>)
      ensures vectorStore.None? ==> r == Err(NoVectorStore)
      ensures vectorStore.Some? ==>
        r == match search(vectorStore.value, SearchRequest(caseFacts, 3, 6))
             case Some(found) => RecommendationsContext(found)
             case None => Err(SearchFailed)
      ensures r.Ok? ==> ContextHeader <= r.value
    {
      var found := FindRelevantRecommendations(caseFacts, search);
      if found.Err? {
        return Err(found.error);
      }
      r := FormatContext(found.value);
    }

    /** `save_index`: writes the store to `path` if there is one, and
        otherwise does nothing. */
    method SaveIndex(path: string, disk: Disk) returns (disk': Disk)
      ensures disk' == SavedIndexes(vectorStore, path, disk)
      ensures vectorStore.None? ==> disk' == disk
      ensures vectorStore.Some? ==> LoadedIndex(disk', path) == Ok(vectorStore.value)
    {
      disk' := disk;
      if vectorStore.Some? {
        disk' := disk'[path := SavedIndex(vectorStore.value)];
      }
    }

    /** `load_index`: a missing path raises FileNotFoundError and leaves the
        store unchanged; otherwise the store saved there becomes active. */
    method LoadIndex(path: string, disk: Disk) returns (r: Result<(), HandlerError>)
      modifies this
      ensures path !in disk ==> r == Err(IndexNotFound(path)) && vectorStore == old(vectorStore)
      ensures r.Ok? <==> LoadedIndex(disk, path).Ok?
      ensures r.Ok? ==> vectorStore == Some(LoadedIndex(disk, path).value)
      ensures r.Err? ==> r.error == LoadedIndex(disk, path).error && vectorStore == old(vectorStore)
    {
      if path in disk {
        var loaded := LoadedIndex(disk, path);
        if loaded.Err? {
          return Err(loaded.error);
        }
        vectorStore := Some(loaded.value);
        r := Ok(());
      } else {
        r := Err(IndexNotFound(path));
      }
    }
  }
}
