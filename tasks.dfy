/**
 * The ingestion job (`process_url`): fetch and extract a page, have the
 * language model structure it, insert the document, split it into chunks and
 * add one vector-index entry per chunk with non-blank text.
 *
 * The network fetch, the extractor and the structuring call are inputs: the
 * fetch/extract outcome, the structuring outcome and the id the driver
 * assigns to the inserted document.
 */
module Tasks {
  import opened Wrappers
  import opened Json
  import opened ObjectIds
  import opened Storage

  /**
   * What fetching the page and extracting its text gave: a fault raised by
   * the HTTP client (timeout, transport error, non-2xx status) with its
   * message, or the extractor's result (None when it found nothing).
   */
  datatype FetchOutcome = Fault(message: string) | Extracted(content: Option<string>)

  /**
   * What structuring the text gave: the JSON object the model's output parsed
   * to, or a failure of the call or of the parse.
   */
  datatype Structuring = Parsed(data: seq<Field>) | Unparseable

  /** A piece of the document to embed: its key and its text as stored (any JSON value). */
  datatype Chunk = Chunk(key: string, text: Json)

  /** The job's outcome: a returned dict, or an exception escaping the job. */
  datatype JobResult = Completed(docId: string) | Error(error: string) | Raised(exception: string)

  /** What one run does: its outcome, the document inserted (if any) and the vector entries added, in order. */
  datatype Effect = Effect(result: JobResult, inserted: Option<Document>, added: seq<VectorEntry>)

  /** What the embedding loop does with one chunk's text. */
  datatype Action = Skip | Embed(text: string) | Raise

  const FetchErrorPrefix := "Fetch/Extract error: "
  const ExtractionFailure := "Failed to extract content"
  const FallbackKey := "content"

  /** The extracted text, or the error message the job returns instead. */
  function ExtractedContent(f: FetchOutcome): Result<string, string> {
    match f
    case Fault(message) => Failure(FetchErrorPrefix + message)
    case Extracted(content) =>
      if content.None? || content.value == "" then Failure(FetchErrorPrefix + ExtractionFailure)
      else Success(content.value)
  }

  /** The document's data: the parsed object, or the text itself under "text" when structuring failed. */
  function DocumentData(s: Structuring, content: string): seq<Field> {
    match s
    case Parsed(data) => data
    case Unparseable => [Field("text", JStr(content))]
  }

  /** `section.get("text", "")` on a section that is a dict. */
  function SectionText(section: Json): Json
    requires section.JObj?
  {
    match Get(section.fields, "text")
    case Some(t) => t
    case None => JStr("")
  }

  /**
   * The chunks of document data, or None when building them raises (a
   * section that is not a dict has no `.get`): one chunk per section of a
   * `sections` dict, in order; else the single chunk of `text` under the
   * fallback key; else none.
   */
  function DerivedChunks(data: seq<Field>): Option<seq<Chunk>> {
    match SectionDict(data)
    case Some(sections) =>
      if forall i :: 0 <= i < |sections| ==> sections[i].value.JObj? then
        Some(seq(|sections|, i requires 0 <= i < |sections| && sections[i].value.JObj? =>
          Chunk(sections[i].key, SectionText(sections[i].value))))
      else None
    case None =>
      match Get(data, "text")
      case Some(t) => Some([Chunk(FallbackKey, t)])
      case None => Some([])
  }

  /**
   * `if not text or not text.strip(): continue` followed by the embedding:
   * falsy and blank texts are skipped, a truthy text that is not a string
   * raises (it has no `.strip()`), any other text is embedded.
   */
  function ActionFor(text: Json): Action {
    if !Truthy(text) then Skip
    else match text
      case JStr(s) => if Blank(s) then Skip else Embed(s)
      case _ => Raise
  }

  /** Exactly the non-blank strings are embedded; exactly the truthy non-strings raise. */
  lemma ActionForCases(text: Json)
    ensures ActionFor(text).Embed? <==> text.JStr? && !Blank(text.s)
    ensures ActionFor(text).Embed? ==> ActionFor(text).text == text.s
    ensures ActionFor(text) == Raise <==> Truthy(text) && !text.JStr?
  {
  }

  /** The vector entries written for `chunks`, in order, when none of them raises. */
  function Entries(chunks: seq<Chunk>, docId: string, url: string): seq<VectorEntry> {
    if chunks == [] then []
    else
      var rest := Entries(chunks[1..], docId, url);
      match ActionFor(chunks[0].text)
      case Embed(s) => [VectorEntry(Metadata(docId, chunks[0].key, url), s)] + rest
      case _ => rest
  }

  /**
   * Every entry carries the document's id string and the page URL, and comes
   * from a chunk whose text is that non-blank string; every chunk with
   * non-blank text has its entry; there is an entry per chunk exactly when
   * every chunk has non-blank text.
   */
  lemma {:induction false} EntriesSpec(chunks: seq<Chunk>, docId: string, url: string)
    ensures |Entries(chunks, docId, url)| <= |chunks|
    ensures forall e :: e in Entries(chunks, docId, url) ==>
      e.meta.mongoId == docId && e.meta.sourceUrl == url && !Blank(e.text)
      && Chunk(e.meta.chunkKey, JStr(e.text)) in chunks
    ensures forall c :: c in chunks && c.text.JStr? && !Blank(c.text.s) ==>
      VectorEntry(Metadata(docId, c.key, url), c.text.s) in Entries(chunks, docId, url)
    ensures |Entries(chunks, docId, url)| == |chunks| <==>
      forall c :: c in chunks ==> c.text.JStr? && !Blank(c.text.s)
  {
    if chunks != [] {
      EntriesSpec(chunks[1..], docId, url);
      ActionForCases(chunks[0].text);
      assert forall c :: c in chunks <==> c == chunks[0] || c in chunks[1..];
    }
  }

  /** The number of chunks whose text is a non-blank string. */
  function NonBlankCount(chunks: seq<Chunk>): nat {
    if chunks == [] then 0
    else (if chunks[0].text.JStr? && !Blank(chunks[0].text.s) then 1 else 0) + NonBlankCount(chunks[1..])
  }

  /** There is one entry per chunk whose text is a non-blank string. */
  lemma {:induction false} EntriesCount(chunks: seq<Chunk>, docId: string, url: string)
    ensures |Entries(chunks, docId, url)| == NonBlankCount(chunks)
  {
    if chunks != [] {
      EntriesCount(chunks[1..], docId, url);
      ActionForCases(chunks[0].text);
    }
  }

  /** Entries of consecutive pieces of a chunk list follow each other. */
  lemma {:induction false} EntriesAppend(a: seq<Chunk>, b: seq<Chunk>, docId: string, url: string)
    ensures Entries(a + b, docId, url) == Entries(a, docId, url) + Entries(b, docId, url)
  {
    if a == [] {
      assert a + b == b;
    } else {
      assert (a + b)[0] == a[0];
      assert (a + b)[1..] == a[1..] + b;
      EntriesAppend(a[1..], b, docId, url);
    }
  }

  /** The index of the first chunk whose text raises, or the number of chunks when none does. */
  function FirstRaise(chunks: seq<Chunk>): (k: nat)
    ensures k <= |chunks|
    ensures forall i :: 0 <= i < k ==> ActionFor(chunks[i].text) != Raise
    ensures k < |chunks| ==> ActionFor(chunks[k].text) == Raise
  {
    if chunks == [] then 0
    else if ActionFor(chunks[0].text) == Raise then 0
    else 1 + FirstRaise(chunks[1..])
  }

  /** Everything one run of the job does. */
  function Ingest(url: string, fetched: FetchOutcome, structured: Structuring, newId: ObjectId): Effect {
    match ExtractedContent(fetched)
    case Failure(message) => Effect(Error(message), None, [])
    case Success(content) =>
      var doc := Document(url, DocumentData(structured, content));
      var docId := Format(newId);
      match DerivedChunks(doc.data)
      case None => Effect(Raised("AttributeError"), Some(doc), [])
      case Some(chunks) =>
        var k := FirstRaise(chunks);
        Effect(if k < |chunks| then Raised("AttributeError") else Completed(docId),
               Some(doc), Entries(chunks[..k], docId, url))
  }

  /** The chunk-building loop: one chunk per section of a `sections` dict, else the `text` chunk. */
  method BuildChunks(data: seq<Field>) returns (chunks: Option<seq<Chunk>>)
    ensures chunks == DerivedChunks(data)
  {
    var built: seq<Chunk> := [];
    var sections := SectionDict(data);
    if sections.Some? {
      var s := sections.value;
      for i := 0 to |s|
        invariant forall j :: 0 <= j < i ==> s[j].value.JObj?
        invariant |built| == i
        invariant forall j :: 0 <= j < i ==> built[j] == Chunk(s[j].key, SectionText(s[j].value))
      {
        if !s[i].value.JObj? {
          return None;
        }
        built := built + [Chunk(s[i].key, SectionText(s[i].value))];
      }
      assert SectionDict(data) == Some(s);
      assert forall j :: 0 <= j < |s| ==> s[j].value.JObj?;
      assert built == seq(|s|, i requires 0 <= i < |s| && s[i].value.JObj? => Chunk(s[i].key, SectionText(s[i].value)));
      assert Some(built) == DerivedChunks(data);
    } else if HasKey(data, "text") {
      built := built + [Chunk(FallbackKey, Get(data, "text").value)];
      assert SectionDict(data).None?;
      assert built == [Chunk(FallbackKey, Get(data, "text").value)];
      assert Some(built) == DerivedChunks(data);
    } else {
      assert Some(built) == DerivedChunks(data);
    }
    return Some(built);
  }

  /** `not s.strip()`. */
  method IsBlankText(s: string) returns (blank: bool)
    ensures blank <==> Blank(s)
  {
    StripEmptyIffBlank(s);
    blank := Strip(s) == "";
  }

  /** The entries one chunk contributes: its entry when its text is embedded, else none. */
  function EntryOf(chunk: Chunk, docId: string, url: string): seq<VectorEntry> {
    match ActionFor(chunk.text)
    case Embed(s) => [VectorEntry(Metadata(docId, chunk.key, url), s)]
    case _ => []
  }

  /** The entries of the first `i` chunks, accumulated the way the loop does. */
  function EntriesUpTo(chunks: seq<Chunk>, i: nat, docId: string, url: string): seq<VectorEntry>
    requires i <= |chunks|
  {
    if i == 0 then [] else EntriesUpTo(chunks, i - 1, docId, url) + EntryOf(chunks[i - 1], docId, url)
  }

  /** The entries of one chunk are the ones it contributes. */
  lemma SingleEntries(chunk: Chunk, docId: string, url: string)
    ensures Entries([chunk], docId, url) == EntryOf(chunk, docId, url)
  {
    assert [chunk][1..] == [];
  }

  /** The entries of one more chunk follow those of the chunks before it. */
  lemma EntriesStep(chunks: seq<Chunk>, i: nat, docId: string, url: string)
    requires i < |chunks|
    ensures Entries(chunks[..i + 1], docId, url) == Entries(chunks[..i], docId, url) + EntryOf(chunks[i], docId, url)
  {
    assert chunks[..i + 1] == chunks[..i] + [chunks[i]];
    EntriesAppend(chunks[..i], [chunks[i]], docId, url);
    SingleEntries(chunks[i], docId, url);
  }

  lemma {:induction false} EntriesUpToPrefix(chunks: seq<Chunk>, i: nat, docId: string, url: string)
    requires i <= |chunks|
    ensures EntriesUpTo(chunks, i, docId, url) == Entries(chunks[..i], docId, url)
  {
    if i == 0 {
      assert chunks[..0] == [];
    } else {
      EntriesUpToPrefix(chunks, i - 1, docId, url);
      EntriesUpToStep(chunks, i - 1, docId, url);
    }
  }

  lemma EntriesUpToStep(chunks: seq<Chunk>, i: nat, docId: string, url: string)
    requires i < |chunks|
    requires EntriesUpTo(chunks, i, docId, url) == Entries(chunks[..i], docId, url)
    ensures EntriesUpTo(chunks, i + 1, docId, url) == Entries(chunks[..i + 1], docId, url)
  {
    EntriesStep(chunks, i, docId, url);
  }

  /**
   * The embedding loop's body for one chunk: a falsy or blank text is
   * skipped, a truthy text that is not a string raises, any other text is
   * added to the index under the chunk's key.
   */
  method IndexChunk(stores: Stores, chunk: Chunk, docId: string, url: string) returns (raised: bool)
    modifies stores
    ensures raised <==> ActionFor(chunk.text) == Raise
    ensures stores.documents == old(stores.documents)
    ensures stores.vectors == old(stores.vectors) + EntryOf(chunk, docId, url)
    ensures stores.log == old(stores.log) + AddWrites(EntryOf(chunk, docId, url))
  {
    var text := chunk.text;
    if !Truthy(text) {
      return false;
    }
    if !text.JStr? {
      return true;
    }
    var blank := IsBlankText(text.s);
    if blank {
      return false;
    }
    var entry := VectorEntry(Metadata(docId, chunk.key, url), text.s);
    assert AddWrites([entry]) == [AddVector(entry)];
    stores.Add(entry);
    return false;
  }

  /**
   * The embedding loop: adds the entry of every chunk with non-blank text,
   * in order, and stops at the first chunk whose text raises.
   */
  method IndexChunks(stores: Stores, chunks: seq<Chunk>, docId: string, url: string) returns (raised: bool)
    modifies stores
    ensures raised <==> FirstRaise(chunks) < |chunks|
    ensures stores.documents == old(stores.documents)
    ensures stores.vectors == old(stores.vectors) + Entries(chunks[..FirstRaise(chunks)], docId, url)
    ensures stores.log == old(stores.log) + AddWrites(Entries(chunks[..FirstRaise(chunks)], docId, url))
  {
    ghost var vectors0, log0 := stores.vectors, stores.log;
    for i := 0 to |chunks|
      invariant i <= FirstRaise(chunks)
      invariant stores.documents == old(stores.documents)
      invariant stores.vectors == vectors0 + EntriesUpTo(chunks, i, docId, url)
      invariant stores.log == log0 + AddWrites(EntriesUpTo(chunks, i, docId, url))
    {
      AddWritesAppend(EntriesUpTo(chunks, i, docId, url), EntryOf(chunks[i], docId, url));
      var raisedHere := IndexChunk(stores, chunks[i], docId, url);
      if raisedHere {
        EntriesUpToPrefix(chunks, i, docId, url);
        return true;
      }
    }
    EntriesUpToPrefix(chunks, |chunks|, docId, url);
    return false;
  }

  /**
   * `process_url(url)`: the first two steps return an error and write
   * nothing; past them the document is inserted once, before any vector
   * entry, and then one entry is added per chunk with non-blank text, until
   * a chunk raises.
   */
  method ProcessUrl(stores: Stores, url: string, fetched: FetchOutcome, structured: Structuring, newId: ObjectId)
    returns (r: JobResult)
    requires newId !in stores.documents
    modifies stores
    ensures r == Ingest(url, fetched, structured, newId).result
    ensures stores.documents ==
      match Ingest(url, fetched, structured, newId).inserted
      case Some(doc) => old(stores.documents)[newId := doc]
      case None => old(stores.documents)
    ensures stores.vectors == old(stores.vectors) + Ingest(url, fetched, structured, newId).added
    ensures stores.log ==
      old(stores.log)
      + (match Ingest(url, fetched, structured, newId).inserted
         case Some(doc) => [InsertDocument(newId, doc)]
         case None => [])
      + AddWrites(Ingest(url, fetched, structured, newId).added)
  {
    var content: string;
    match fetched {
      case Fault(message) =>
        return Error(FetchErrorPrefix + message);
      case Extracted(extracted) =>
        if extracted.None? || extracted.value == "" {
          return Error(FetchErrorPrefix + ExtractionFailure);
        }
        content := extracted.value;
    }

    var data := match structured
      case Parsed(parsed) => parsed
      case Unparseable => [Field("text", JStr(content))];
    var doc := Document(url, data);
    stores.InsertOne(newId, doc);
    var docId := Format(newId);

    var built := BuildChunks(data);
    if built.None? {
      return Raised("AttributeError");
    }
    var raised := IndexChunks(stores, built.value, docId, url);
    if raised {
      return Raised("AttributeError");
    }
    return Completed(docId);
  }
}

/** What the ingestion job promises, stated over `Tasks.Ingest`. */
module IngestProperties {
  import opened Wrappers
  import opened Json
  import opened ObjectIds
  import opened Storage
  import opened Tasks

  /** A fetch fault ends the job with its message and writes nothing. */
  lemma FetchFaultWritesNothing(url: string, message: string, structured: Structuring, newId: ObjectId)
    ensures Ingest(url, Fault(message), structured, newId)
         == Effect(Error("Fetch/Extract error: " + message), None, [])
  {
  }

  /** No extracted text (None or empty) ends the job with the extraction error and writes nothing. */
  lemma NoContentWritesNothing(url: string, content: Option<string>, structured: Structuring, newId: ObjectId)
    requires content.None? || content == Some("")
    ensures Ingest(url, Extracted(content), structured, newId)
         == Effect(Error(FetchErrorPrefix + ExtractionFailure), None, [])
  {
  }

  /**
   * The document is inserted exactly when extraction gave text, with the
   * parsed object or the fallback as its data; runs that insert never return
   * an error, and runs that do not insert add nothing.
   */
  lemma InsertExactlyPastExtraction(url: string, fetched: FetchOutcome, structured: Structuring, newId: ObjectId)
    ensures Ingest(url, fetched, structured, newId).inserted.Some?
        <==> fetched.Extracted? && fetched.content.Some? && fetched.content.value != ""
    ensures Ingest(url, fetched, structured, newId).inserted.Some? ==>
      Ingest(url, fetched, structured, newId).inserted.value
        == Document(url, DocumentData(structured, fetched.content.value))
      && !Ingest(url, fetched, structured, newId).result.Error?
    ensures Ingest(url, fetched, structured, newId).inserted.None? ==>
      Ingest(url, fetched, structured, newId).added == []
      && Ingest(url, fetched, structured, newId).result.Error?
  {
  }

  /**
   * When structuring fails the document is `{"url": url, "data": {"text":
   * content}}` and the job completes, with the single entry of the whole
   * text under "content" unless that text is blank.
   */
  lemma FallbackCompletes(url: string, content: string, newId: ObjectId)
    requires content != ""
    ensures Ingest(url, Extracted(Some(content)), Unparseable, newId)
         == Effect(Completed(Format(newId)),
                   Some(Document(url, [Field("text", JStr(content))])),
                   if Blank(content) then [] else [VectorEntry(Metadata(Format(newId), "content", url), content)])
  {
    var data := [Field("text", JStr(content))];
    var chunk := Chunk("content", JStr(content));
    assert ExtractedContent(Extracted(Some(content))) == Success(content);
    assert DocumentData(Unparseable, content) == data;
    assert !HasKey(data, "sections");
    assert DerivedChunks(data) == Some([chunk]);
    SingleChunk(chunk, Format(newId), url);
    assert FirstRaise([chunk]) == 1;
  }

  /**
   * Every entry the job adds carries the string id of the document it
   * inserted, the page URL and the key of a chunk of that document whose
   * text is the entry's non-blank text.
   */
  lemma AddedEntriesReferToDocument(url: string, fetched: FetchOutcome, structured: Structuring, newId: ObjectId)
    ensures forall e :: e in Ingest(url, fetched, structured, newId).added ==>
      && e.meta.mongoId == Format(newId)
      && e.meta.sourceUrl == url
      && !Blank(e.text)
      && Ingest(url, fetched, structured, newId).inserted.Some?
      && DerivedChunks(Ingest(url, fetched, structured, newId).inserted.value.data).Some?
      && Chunk(e.meta.chunkKey, JStr(e.text))
           in DerivedChunks(Ingest(url, fetched, structured, newId).inserted.value.data).value
  {
    var effect := Ingest(url, fetched, structured, newId);
    if effect.inserted.Some? && DerivedChunks(effect.inserted.value.data).Some? {
      var chunks := DerivedChunks(effect.inserted.value.data).value;
      var k := FirstRaise(chunks);
      EntriesSpec(chunks[..k], Format(newId), url);
      assert forall c :: c in chunks[..k] ==> c in chunks;
    }
  }

  /**
   * A completed run returns the inserted document's id string and has added
   * one entry per chunk with non-blank text, in chunk order, so as many
   * entries as such chunks; there are as many entries as chunks exactly when
   * no chunk text is blank.
   */
  lemma CompletedIndexesNonBlankChunks(url: string, fetched: FetchOutcome, structured: Structuring, newId: ObjectId)
    requires Ingest(url, fetched, structured, newId).result.Completed?
    ensures Ingest(url, fetched, structured, newId).result == Completed(Format(newId))
    ensures Ingest(url, fetched, structured, newId).inserted.Some?
    ensures DerivedChunks(Ingest(url, fetched, structured, newId).inserted.value.data).Some?
    ensures Ingest(url, fetched, structured, newId).added
         == Entries(DerivedChunks(Ingest(url, fetched, structured, newId).inserted.value.data).value, Format(newId), url)
    ensures forall c :: c in DerivedChunks(Ingest(url, fetched, structured, newId).inserted.value.data).value
                        && c.text.JStr? && !Blank(c.text.s) ==>
      VectorEntry(Metadata(Format(newId), c.key, url), c.text.s) in Ingest(url, fetched, structured, newId).added
    ensures |Ingest(url, fetched, structured, newId).added|
              == |DerivedChunks(Ingest(url, fetched, structured, newId).inserted.value.data).value|
        <==> forall c :: c in DerivedChunks(Ingest(url, fetched, structured, newId).inserted.value.data).value ==>
               c.text.JStr? && !Blank(c.text.s)
    ensures |Ingest(url, fetched, structured, newId).added|
         == NonBlankCount(DerivedChunks(Ingest(url, fetched, structured, newId).inserted.value.data).value)
  {
    var chunks := DerivedChunks(Ingest(url, fetched, structured, newId).inserted.value.data).value;
    assert chunks[..|chunks|] == chunks;
    EntriesSpec(chunks, Format(newId), url);
    EntriesCount(chunks, Format(newId), url);
  }

  /**
   * An exception escapes only after the insert: when a section is not a
   * dict, or when a chunk's text is truthy but not a string.
   */
  lemma RaisesOnlyAfterInsert(url: string, fetched: FetchOutcome, structured: Structuring, newId: ObjectId)
    requires Ingest(url, fetched, structured, newId).result.Raised?
    ensures Ingest(url, fetched, structured, newId).inserted.Some?
    ensures
      var data := Ingest(url, fetched, structured, newId).inserted.value.data;
      || (SectionDict(data).Some? && exists f :: f in SectionDict(data).value && !f.value.JObj?)
      || (DerivedChunks(data).Some? && exists c :: c in DerivedChunks(data).value && Truthy(c.text) && !c.text.JStr?)
  {
    var data := Ingest(url, fetched, structured, newId).inserted.value.data;
    match DerivedChunks(data)
    case None =>
      var sections := SectionDict(data).value;
      var i :| 0 <= i < |sections| && !sections[i].value.JObj?;
      assert sections[i] in sections;
    case Some(chunks) =>
      var k := FirstRaise(chunks);
      ActionForCases(chunks[k].text);
      assert chunks[k] in chunks;
  }

  /** The job's handling of a single chunk. */
  lemma SingleChunk(c: Chunk, docId: string, url: string)
    ensures [c][..FirstRaise([c])] == if ActionFor(c.text) == Raise then [] else [c]
    ensures Entries([c], docId, url)
         == if c.text.JStr? && !Blank(c.text.s) then [VectorEntry(Metadata(docId, c.key, url), c.text.s)] else []
  {
    assert [c][1..] == [];
    ActionForCases(c.text);
  }

  /** Ingestion keeps every vector entry's back-reference pointing at a stored document. */
  lemma IngestKeepsBackReferences(
    documents: map<ObjectId, Document>, vectors: seq<VectorEntry>,
    url: string, fetched: FetchOutcome, structured: Structuring, newId: ObjectId)
    requires BackReferencesResolve(documents, vectors)
    ensures
      var effect := Ingest(url, fetched, structured, newId);
      BackReferencesResolve(
        if effect.inserted.Some? then documents[newId := effect.inserted.value] else documents,
        vectors + effect.added)
  {
    var effect := Ingest(url, fetched, structured, newId);
    AddedEntriesReferToDocument(url, fetched, structured, newId);
    ParseFormat(newId);
    var all := vectors + effect.added;
    forall i | |vectors| <= i < |all|
      ensures Parse(all[i].meta.mongoId) == Some(newId)
    {
      assert all[i] in effect.added;
    }
  }

  /** The structured page of the two-section test: a title and the sections "intro" and "body". */
  const TwoSectionData := [
    Field("title", JStr("Test Article")),
    Field("sections", JObj([
      Field("intro", JObj([Field("text", JStr("Introduction text"))])),
      Field("body", JObj([Field("text", JStr("Body text"))]))]))]

  const TwoSectionChunks := [Chunk("intro", JStr("Introduction text")), Chunk("body", JStr("Body text"))]

  lemma TwoSectionDerivation()
    ensures DerivedChunks(TwoSectionData) == Some(TwoSectionChunks)
  {
    var intro := JObj([Field("text", JStr("Introduction text"))]);
    var body := JObj([Field("text", JStr("Body text"))]);
    var sections := [Field("intro", intro), Field("body", body)];
    assert Get(TwoSectionData, "sections") == Some(JObj(sections));
    assert SectionDict(TwoSectionData) == Some(sections);
    assert SectionText(intro) == JStr("Introduction text");
    assert SectionText(body) == JStr("Body text");
    var derived := DerivedChunks(TwoSectionData).value;
    assert |derived| == 2 && derived[0] == TwoSectionChunks[0] && derived[1] == TwoSectionChunks[1];
    assert derived == TwoSectionChunks;
  }

  lemma TwoSectionIndexing(docId: string, url: string)
    ensures FirstRaise(TwoSectionChunks) == 2
    ensures |Entries(TwoSectionChunks, docId, url)| == 2
  {
    var chunks := TwoSectionChunks;
    assert "Introduction text"[0] == 'I' && !IsSpace('I');
    assert "Body text"[0] == 'B' && !IsSpace('B');
    SingleChunk(chunks[0], docId, url);
    SingleChunk(chunks[1], docId, url);
    assert chunks == [chunks[0]] + [chunks[1]];
    EntriesAppend([chunks[0]], [chunks[1]], docId, url);
    assert chunks[1..] == [chunks[1]];
  }

  /** The two-section page of the tests: one insert with exactly that data, and two entries. */
  lemma TwoSectionsScenario(newId: ObjectId)
    ensures
      var effect := Ingest("https://example.com", Extracted(Some("Extracted test content")), Parsed(TwoSectionData), newId);
      && effect.result == Completed(Format(newId))
      && effect.inserted == Some(Document("https://example.com", TwoSectionData))
      && |effect.added| == 2
  {
    TwoSectionDerivation();
    TwoSectionIndexing(Format(newId), "https://example.com");
    assert TwoSectionChunks[..2] == TwoSectionChunks;
  }

  /** A structuring output that is `{"text": ...}` is stored as it is and gives the one "content" chunk. */
  lemma ParsedTextAcceptedAsIs(url: string, content: string, text: string, newId: ObjectId)
    requires content != "" && !Blank(text)
    ensures
      var effect := Ingest(url, Extracted(Some(content)), Parsed([Field("text", JStr(text))]), newId);
      && effect.result == Completed(Format(newId))
      && effect.inserted == Some(Document(url, [Field("text", JStr(text))]))
      && effect.added == [VectorEntry(Metadata(Format(newId), "content", url), text)]
  {
    var data := [Field("text", JStr(text))];
    assert !HasKey(data, "sections");
    assert DerivedChunks(data) == Some([Chunk("content", JStr(text))]);
    SingleChunk(Chunk("content", JStr(text)), Format(newId), url);
  }

  /** A parsed object with neither a `sections` dict nor `text` gives no chunk: the job completes with no entry. */
  lemma NoSectionsNoTextIndexesNothing(url: string, content: string, data: seq<Field>, newId: ObjectId)
    requires content != "" && SectionDict(data).None? && !HasKey(data, "text")
    ensures Ingest(url, Extracted(Some(content)), Parsed(data), newId)
         == Effect(Completed(Format(newId)), Some(Document(url, data)), [])
  {
  }
}
