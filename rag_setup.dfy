/** The retrieval side of the agent: the CV and the cover-letter guide are
    loaded, split into chunks, tagged by source and stored in one vector
    store, which two tools then search. PDF loading, text splitting,
    embeddings and the similarity search appear as functions passed in. */
module RagSetup {
  import opened Wrappers
  import opened Text

  const SourceTypeKey: string := "source_type"
  const CvTag: string := "cv"
  const GuideTag: string := "cover_letter_guide"
  const CollectionName: string := "resume_assistant"
  /** The `k` of both retrievers. */
  const RetrievedPerQuery: nat := 5
  const CvLabel: string := "CV"
  const GuideLabel: string := "Guide"
  const NoCvFound: string := "No relevant CV information found."
  const NoGuideFound: string := "No relevant cover letter guidance found."
  const SectionSeparator: string := "\n\n"

  function CvPath(baseDir: string): string {
    PathJoin(PathJoin(baseDir, "literature"), "CV.pdf")
  }

  function GuidePath(baseDir: string): string {
    PathJoin(PathJoin(baseDir, "literature"), "How to write an excellent Cover Letter.pdf")
  }

  function PersistDirectory(baseDir: string): string {
    PathJoin(baseDir, "chroma_db")
  }

  // ---------------------------------------------------------------------
  // Documents and chunks

  /** A page or chunk as a value: its text and its metadata. */
  datatype Document = Document(pageContent: string, metadata: map<string, string>)

  /** A chunk object handed back by the splitter; the tagging loops update
      its metadata in place. */
  class Chunk {
    var pageContent: string
    var metadata: map<string, string>

    constructor (document: Document)
      ensures pageContent == document.pageContent && metadata == document.metadata
    {
      pageContent := document.pageContent;
      metadata := document.metadata;
    }
  }

  /** The documents the chunk objects currently hold. */
  function Snapshot(chunks: seq<Chunk>): (r: seq<Document>)
    reads chunks
    ensures |r| == |chunks|
    ensures forall i :: 0 <= i < |chunks| ==> r[i] == Document(chunks[i].pageContent, chunks[i].metadata)
  {
    if chunks == [] then []
    else [Document(chunks[0].pageContent, chunks[0].metadata)] + Snapshot(chunks[1..])
  }

  /** The documents of two lists of chunks, one after the other. */
  lemma SnapshotAppend(a: seq<Chunk>, b: seq<Chunk>)
    ensures Snapshot(a + b) == Snapshot(a) + Snapshot(b)
  {
  }

  predicate HasTag(d: Document, tag: string) {
    SourceTypeKey in d.metadata && d.metadata[SourceTypeKey] == tag
  }

  /** `chunk.metadata["source_type"] = tag` on a value. */
  function WithTag(d: Document, tag: string): Document {
    d.(metadata := d.metadata[SourceTypeKey := tag])
  }

  /** Every document of a list, tagged. */
  function Tagged(docs: seq<Document>, tag: string): (r: seq<Document>)
    ensures |r| == |docs|
    ensures forall i :: 0 <= i < |docs| ==> r[i] == WithTag(docs[i], tag)
  {
    seq(|docs|, i requires 0 <= i < |docs| => WithTag(docs[i], tag))
  }

  /** Tagging keeps the text and every other metadata entry, and sets the
      source type. */
  lemma TaggedDocuments(docs: seq<Document>, tag: string, i: nat)
    requires i < |docs|
    ensures HasTag(Tagged(docs, tag)[i], tag)
    ensures Tagged(docs, tag)[i].pageContent == docs[i].pageContent
    ensures Tagged(docs, tag)[i].metadata.Keys == docs[i].metadata.Keys + {SourceTypeKey}
    ensures forall k :: k in docs[i].metadata && k != SourceTypeKey ==>
      Tagged(docs, tag)[i].metadata[k] == docs[i].metadata[k]
  {
  }

  /** Tagging twice is tagging once. */
  lemma TaggedIdempotent(docs: seq<Document>, tag: string)
    ensures Tagged(Tagged(docs, tag), tag) == Tagged(docs, tag)
  {
    forall i | 0 <= i < |docs|
      ensures WithTag(WithTag(docs[i], tag), tag) == WithTag(docs[i], tag)
    {
      assert WithTag(WithTag(docs[i], tag), tag).metadata == WithTag(docs[i], tag).metadata;
    }
  }

  /** The splitter's chunk objects for a list of documents. */
  method NewChunks(documents: seq<Document>) returns (chunks: seq<Chunk>)
    ensures |chunks| == |documents|
    ensures forall i :: 0 <= i < |chunks| ==> fresh(chunks[i])
    ensures Snapshot(chunks) == documents
  {
    chunks := [];
    for i := 0 to |documents|
      invariant |chunks| == i
      invariant forall j :: 0 <= j < i ==> fresh(chunks[j])
      invariant forall j :: 0 <= j < i ==> Document(chunks[j].pageContent, chunks[j].metadata) == documents[j]
    {
      var chunk := new Chunk(documents[i]);
      chunks := chunks + [chunk];
    }
  }

  /** `for chunk in chunks: chunk.metadata["source_type"] = tag`. A chunk
      that occurs twice is tagged twice, which is the same as once. */
  method TagChunks(chunks: seq<Chunk>, tag: string)
    modifies chunks
    ensures Snapshot(chunks) == Tagged(old(Snapshot(chunks)), tag)
  {
    for i := 0 to |chunks|
      invariant forall j :: 0 <= j < |chunks| ==> chunks[j].pageContent == old(chunks[j].pageContent)
      invariant forall j :: 0 <= j < |chunks| ==>
        chunks[j].metadata == if chunks[j] in chunks[..i] then old(chunks[j].metadata)[SourceTypeKey := tag] else old(chunks[j].metadata)
    {
      assert chunks[..i + 1] == chunks[..i] + [chunks[i]];
      chunks[i].metadata := chunks[i].metadata[SourceTypeKey := tag];
    }
    assert chunks[..|chunks|] == chunks;
  }

  // ---------------------------------------------------------------------
  // Building or loading the store

  datatype RagError = CvNotFound(path: string) | GuideNotFound(path: string)

  datatype VectorStore = VectorStore(collection: string, directory: string, documents: seq<Document>)

  /** `PyPDFLoader(path).load()`: the pages of a PDF. */
  type Loader = string -> seq<Document>
  /** `split_documents`: the chunks of a list of pages. */
  type Splitter = seq<Document> -> seq<Document>

  /** What `initialize_rag_system` gives back, given the files that exist. */
  function Initialized(baseDir: string, existing: set<string>, load: Loader, split: Splitter): Result<VectorStore, RagError> {
    if CvPath(baseDir) !in existing then Failure(CvNotFound(CvPath(baseDir)))
    else if GuidePath(baseDir) !in existing then Failure(GuideNotFound(GuidePath(baseDir)))
    else Success(VectorStore(CollectionName, PersistDirectory(baseDir),
      Tagged(split(load(CvPath(baseDir))), CvTag) + Tagged(split(load(GuidePath(baseDir))), GuideTag)))
  }

  /** `initialize_rag_system`: check both PDFs, load and split them, tag the
      chunks, and store CV chunks followed by guide chunks; the persist
      directory is created when it is missing. */
  method InitializeRagSystem(baseDir: string, existing: set<string>, load: Loader, split: Splitter)
    returns (r: Result<VectorStore, RagError>, createDirectory: bool)
    ensures r == Initialized(baseDir, existing, load, split)
    ensures createDirectory <==> r.Success? && PersistDirectory(baseDir) !in existing
  {
    var cvPath := CvPath(baseDir);
    var guidePath := GuidePath(baseDir);
    if cvPath !in existing {
      return Failure(CvNotFound(cvPath)), false;
    }
    if guidePath !in existing {
      return Failure(GuideNotFound(guidePath)), false;
    }
    ghost var cvDocs := split(load(cvPath));
    ghost var guideDocs := split(load(guidePath));
    var cvChunks := NewChunks(split(load(cvPath)));
    var guideChunks := NewChunks(split(load(guidePath)));
    TagChunks(cvChunks, CvTag);
    assert Snapshot(cvChunks) == Tagged(cvDocs, CvTag);
    assert Snapshot(guideChunks) == guideDocs;
    TagChunks(guideChunks, GuideTag);
    assert Snapshot(guideChunks) == Tagged(guideDocs, GuideTag);
    assert Snapshot(cvChunks) == Tagged(cvDocs, CvTag);
    var allChunks := cvChunks + guideChunks;
    SnapshotAppend(cvChunks, guideChunks);
    createDirectory := PersistDirectory(baseDir) !in existing;
    r := Success(VectorStore(CollectionName, PersistDirectory(baseDir), Snapshot(allChunks)));
  }

  /** A missing CV is reported whatever the guide; the guide is reported
      missing only when the CV is there; with both there the store is
      built. */
  lemma InitializeErrors(baseDir: string, existing: set<string>, load: Loader, split: Splitter)
    ensures Initialized(baseDir, existing, load, split) == Failure(CvNotFound(CvPath(baseDir)))
      <==> CvPath(baseDir) !in existing
    ensures Initialized(baseDir, existing, load, split).Failure? && Initialized(baseDir, existing, load, split).error.GuideNotFound?
      <==> CvPath(baseDir) in existing && GuidePath(baseDir) !in existing
    ensures Initialized(baseDir, existing, load, split).Success?
      <==> CvPath(baseDir) in existing && GuidePath(baseDir) in existing
  {
  }

  /** The built store holds every CV chunk, tagged `"cv"`, followed by every
      guide chunk, tagged `"cover_letter_guide"`, with their texts. */
  lemma InitializedStoreTags(baseDir: string, existing: set<string>, load: Loader, split: Splitter)
    requires Initialized(baseDir, existing, load, split).Success?
    ensures var store := Initialized(baseDir, existing, load, split).value;
      var cv := split(load(CvPath(baseDir)));
      var guide := split(load(GuidePath(baseDir)));
      && store.collection == CollectionName
      && |store.documents| == |cv| + |guide|
      && (forall i :: 0 <= i < |cv| ==>
            HasTag(store.documents[i], CvTag) && store.documents[i].pageContent == cv[i].pageContent)
      && (forall i :: 0 <= i < |guide| ==>
            HasTag(store.documents[|cv| + i], GuideTag) && store.documents[|cv| + i].pageContent == guide[i].pageContent)
  {
  }

  /** Where the stored collection came from. */
  datatype StoreOrigin = LoadedExisting | BuiltNew

  /** `get_vectorstore`: open the persisted store when its directory exists
      and lists something, and build a new one otherwise. `listing` is
      `os.listdir`, `persisted` what the directory holds. */
  method GetVectorstore(baseDir: string, existing: set<string>, listing: string -> seq<string>,
                        persisted: seq<Document>, load: Loader, split: Splitter)
    returns (r: Result<VectorStore, RagError>, origin: StoreOrigin, createDirectory: bool)
    ensures origin == LoadedExisting <==>
      PersistDirectory(baseDir) in existing && listing(PersistDirectory(baseDir)) != []
    ensures origin == LoadedExisting ==>
      r == Success(VectorStore(CollectionName, PersistDirectory(baseDir), persisted)) && !createDirectory
    ensures origin == BuiltNew ==>
      r == Initialized(baseDir, existing, load, split)
      && (createDirectory <==> r.Success? && PersistDirectory(baseDir) !in existing)
  {
    var directory := PersistDirectory(baseDir);
    if directory in existing && listing(directory) != [] {
      return Success(VectorStore(CollectionName, directory, persisted)), LoadedExisting, false;
    }
    r, createDirectory := InitializeRagSystem(baseDir, existing, load, split);
    origin := BuiltNew;
  }

  // ---------------------------------------------------------------------
  // Retrieval

  /** The similarity search: the store's documents ranked for a query. */
  type Ranking = (seq<Document>, string) -> seq<Document>

  /** The documents of a list that carry a tag, in their order. */
  function OnlyTagged(docs: seq<Document>, tag: string): (r: seq<Document>)
    ensures |r| <= |docs|
    ensures forall d :: d in r ==> d in docs && HasTag(d, tag)
    ensures forall d :: d in docs && HasTag(d, tag) ==> d in r
  {
    if docs == [] then []
    else (if HasTag(docs[0], tag) then [docs[0]] else []) + OnlyTagged(docs[1..], tag)
  }

  /** A retriever with `k = 5` and the filter `{"source_type": tag}`. */
  function Retrieve(store: VectorStore, rank: Ranking, tag: string, query: string): seq<Document> {
    Take(OnlyTagged(rank(store.documents, query), tag), RetrievedPerQuery)
  }

  /** A retriever returns at most five documents, each carrying its tag and
      each among the store's documents when the ranking draws from them. */
  lemma RetrieveBounded(store: VectorStore, rank: Ranking, tag: string, query: string)
    ensures |Retrieve(store, rank, tag, query)| <= RetrievedPerQuery
    ensures forall d :: d in Retrieve(store, rank, tag, query) ==> HasTag(d, tag) && d in rank(store.documents, query)
    ensures (forall d :: d in rank(store.documents, query) ==> d in store.documents) ==>
      forall d :: d in Retrieve(store, rank, tag, query) ==> d in store.documents
  {
    var all := OnlyTagged(rank(store.documents, query), tag);
    assert forall d :: d in Retrieve(store, rank, tag, query) ==> d in all;
  }

  /** The CV retriever never returns a guide chunk, nor the other way round. */
  lemma RetrieversDisjoint(store: VectorStore, rank: Ranking, query: string, d: Document)
    requires d in Retrieve(store, rank, CvTag, query)
    ensures d !in Retrieve(store, rank, GuideTag, query)
  {
    RetrieveBounded(store, rank, CvTag, query);
    RetrieveBounded(store, rank, GuideTag, query);
  }

  /** `f"{heading} Section {n}:\n{content}"`. */
  function SectionEntry(heading: string, number: nat, content: string): string {
    heading + " Section " + NatToString(number) + ":\n" + content
  }

  /** The entries of a list of documents, numbered from one in order. */
  function Sections(docs: seq<Document>, heading: string): (r: seq<string>)
    ensures |r| == |docs|
    ensures forall i :: 0 <= i < |docs| ==> r[i] == SectionEntry(heading, i + 1, docs[i].pageContent)
  {
    seq(|docs|, i requires 0 <= i < |docs| => SectionEntry(heading, i + 1, docs[i].pageContent))
  }

  /** What a retriever tool returns for the documents it found. */
  function Formatted(docs: seq<Document>, heading: string, none: string): string {
    if docs == [] then none else Join(Sections(docs, heading), SectionSeparator)
  }

  /** The body of both tools: the entries built in an enumerate loop and
      joined by a blank line, or the sentence for nothing found. */
  method RenderSections(docs: seq<Document>, heading: string, none: string) returns (out: string)
    ensures out == Formatted(docs, heading, none)
  {
    if docs == [] {
      return none;
    }
    var results: seq<string> := [];
    for i := 0 to |docs|
      invariant |results| == i
      invariant forall j :: 0 <= j < i ==> results[j] == SectionEntry(heading, j + 1, docs[j].pageContent)
    {
      results := results + [SectionEntry(heading, i + 1, docs[i].pageContent)];
    }
    assert results == Sections(docs, heading);
    out := Join(results, SectionSeparator);
  }

  /** `retrieve_cv_content`. */
  method RetrieveCvContent(store: VectorStore, rank: Ranking, query: string) returns (out: string)
    ensures out == Formatted(Retrieve(store, rank, CvTag, query), CvLabel, NoCvFound)
  {
    var docs := Retrieve(store, rank, CvTag, query);
    out := RenderSections(docs, CvLabel, NoCvFound);
  }

  /** `retrieve_cover_letter_guide`. */
  method RetrieveCoverLetterGuide(store: VectorStore, rank: Ranking, query: string) returns (out: string)
    ensures out == Formatted(Retrieve(store, rank, GuideTag, query), GuideLabel, NoGuideFound)
  {
    var docs := Retrieve(store, rank, GuideTag, query);
    out := RenderSections(docs, GuideLabel, NoGuideFound);
  }

  /** When the heading and the sentence for nothing found begin differently,
      a tool answers with that sentence exactly when it found nothing. */
  lemma FormattedSentinel(docs: seq<Document>, heading: string, none: string)
    requires heading != [] && none != [] && heading[0] != none[0]
    ensures Formatted(docs, heading, none) == none <==> docs == []
  {
    if docs != [] {
      var parts := Sections(docs, heading);
      JoinOpensWithFirst(parts, SectionSeparator);
      assert parts[0][0] == heading[0];
      assert Formatted(docs, heading, none)[0] == heading[0];
    }
  }

  /** Both tools answer with their sentence exactly when the retriever found
      nothing. */
  lemma ToolSentinels(cvDocs: seq<Document>, guideDocs: seq<Document>)
    ensures Formatted(cvDocs, CvLabel, NoCvFound) == NoCvFound <==> cvDocs == []
    ensures Formatted(guideDocs, GuideLabel, NoGuideFound) == NoGuideFound <==> guideDocs == []
  {
    FormattedSentinel(cvDocs, CvLabel, NoCvFound);
    FormattedSentinel(guideDocs, GuideLabel, NoGuideFound);
  }

  /** Every document found appears in the answer under its number. */
  lemma FormattedHoldsSection(docs: seq<Document>, heading: string, none: string, i: nat)
    requires i < |docs|
    ensures Contains(Formatted(docs, heading, none), SectionEntry(heading, i + 1, docs[i].pageContent))
  {
    JoinContainsParts(Sections(docs, heading), SectionSeparator, i);
  }

  /** One more document found adds its entry, numbered next, after a blank
      line: the entries come in retriever order. */
  lemma FormattedAppend(docs: seq<Document>, d: Document, heading: string, none: string)
    requires docs != []
    ensures Formatted(docs + [d], heading, none)
      == Formatted(docs, heading, none) + SectionSeparator + SectionEntry(heading, |docs| + 1, d.pageContent)
  {
    assert Sections(docs + [d], heading) == Sections(docs, heading) + [SectionEntry(heading, |docs| + 1, d.pageContent)];
    JoinAppend(Sections(docs, heading), SectionEntry(heading, |docs| + 1, d.pageContent), SectionSeparator);
  }
}
