/**
 * How the two halves fit together: every vector entry the ingestion job adds
 * is found again by the query endpoint, whose resolution rule reads the
 * chunk's text back out of the stored document.
 */
module Consistency {
  import opened Wrappers
  import opened Json
  import opened ObjectIds
  import opened Storage
  import opened Tasks
  import opened ApiQuery
  import opened IngestProperties

  /** The `sections` object of document data, when there is one, has no repeated key (it is a dict). */
  predicate SectionsAreDict(data: seq<Field>) {
    SectionDict(data).Some? ==> DistinctKeys(SectionDict(data).value)
  }

  /** A chunk built from document data with non-blank text resolves, under its key, to that very text. */
  lemma ChunkResolves(data: seq<Field>, c: Chunk)
    requires SectionsAreDict(data)
    requires DerivedChunks(data).Some? && c in DerivedChunks(data).value
    requires c.text.JStr? && !Blank(c.text.s)
    ensures Resolve(data, c.key) == Text(c.text)
  {
    var chunks := DerivedChunks(data).value;
    match SectionDict(data)
    case Some(sections) =>
      var i :| 0 <= i < |chunks| && chunks[i] == c;
      assert c == Chunk(sections[i].key, SectionText(sections[i].value));
      var fields := sections[i].value.fields;
      assert Get(fields, "text").Some?;
      assert fields != [];
      GetOfDistinct(sections, i);
    case None =>
      assert chunks == [Chunk(FallbackKey, Get(data, "text").value)];
  }

  /**
   * Every entry the job adds names, by its id string, the document the job
   * inserted, and its chunk key resolves in that document to the entry's text.
   */
  lemma IngestedEntriesResolve(url: string, fetched: FetchOutcome, structured: Structuring, newId: ObjectId)
    requires structured.Parsed? ==> SectionsAreDict(structured.data)
    ensures forall e :: e in Ingest(url, fetched, structured, newId).added ==>
      && ObjId(e.meta.mongoId) == Success(newId)
      && Ingest(url, fetched, structured, newId).inserted.Some?
      && Resolve(Ingest(url, fetched, structured, newId).inserted.value.data, e.meta.chunkKey) == Text(JStr(e.text))
  {
    var effect := Ingest(url, fetched, structured, newId);
    AddedEntriesReferToDocument(url, fetched, structured, newId);
    ObjIdOfFormat(newId);
    forall e | e in effect.added
      ensures Resolve(effect.inserted.value.data, e.meta.chunkKey) == Text(JStr(e.text))
    {
      var data := effect.inserted.value.data;
      assert SectionsAreDict(data);
      ChunkResolves(data, Chunk(e.meta.chunkKey, JStr(e.text)));
    }
  }

  /**
   * Once the job's document is stored, a query hit carrying an added entry's
   * metadata, seen for the first time, contributes the entry's text as a
   * context and the page URL as a source.
   */
  lemma IngestedEntryAnswers(
    documents: map<ObjectId, Document>, url: string, fetched: FetchOutcome, structured: Structuring,
    newId: ObjectId, e: VectorEntry, acc: Scan)
    requires structured.Parsed? ==> SectionsAreDict(structured.data)
    requires e in Ingest(url, fetched, structured, newId).added
    requires newId in documents && Ingest(url, fetched, structured, newId).inserted == Some(documents[newId])
    requires Pair(e.meta) !in acc.seen
    ensures ScanStep(documents, acc, e.meta)
         == Success(Scan(acc.seen + {Pair(e.meta)}, acc.contexts + [JStr(e.text)], acc.sources + [url]))
  {
    IngestedEntriesResolve(url, fetched, structured, newId);
    AddedEntriesReferToDocument(url, fetched, structured, newId);
    assert e.text != "" by {
      assert !Blank(e.text);
    }
  }
}
