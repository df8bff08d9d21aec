/**
 * The two stores the ingestion job writes and the API reads: the document
 * store (a Mongo collection, id -> {url, data}) and the vector index (a
 * Chroma collection, one entry per indexed chunk). Both are owned by one
 * object; a ghost log records every write in the order it happens.
 */
module Storage {
  import opened Wrappers
  import opened Json
  import opened ObjectIds

  /** A stored document: the page's URL and its data, a JSON object. */
  datatype Document = Document(url: string, data: seq<Field>)

  /** The metadata of a vector-index entry: the owning document's id string, the chunk key, the page URL. */
  datatype Metadata = Metadata(mongoId: string, chunkKey: string, sourceUrl: string)

  /**
   * A vector-index entry. The embedding model is deterministic, so the
   * embedding is represented by the text it was computed from.
   */
  datatype VectorEntry = VectorEntry(meta: Metadata, text: string)

  datatype Write = InsertDocument(id: ObjectId, doc: Document) | AddVector(entry: VectorEntry)

  /** The log records of adding `entries` one after the other. */
  function AddWrites(entries: seq<VectorEntry>): seq<Write> {
    seq(|entries|, i requires 0 <= i < |entries| => AddVector(entries[i]))
  }

  lemma AddWritesAppend(a: seq<VectorEntry>, b: seq<VectorEntry>)
    ensures AddWrites(a + b) == AddWrites(a) + AddWrites(b)
  {
  }

  /** The `sections` value of document data, when it is a dict. */
  function SectionDict(data: seq<Field>): Option<seq<Field>> {
    match Get(data, "sections")
    case Some(JObj(sections)) => Some(sections)
    case _ => None
  }

  function Min(a: int, b: int): int {
    if a <= b then a else b
  }

  /** Mongo's `.skip(skip).limit(limit)` on a cursor. */
  function Window<T>(s: seq<T>, skip: nat, limit: nat): (w: seq<T>)
    ensures |w| <= limit
    ensures skip <= |s| ==> |w| == Min(limit, |s| - skip)
    ensures skip <= |s| ==> forall i :: 0 <= i < |w| ==> w[i] == s[skip + i]
    ensures skip >= |s| ==> w == []
  {
    s[Min(skip, |s|)..Min(skip + limit, |s|)]
  }

  /** Every vector entry's back-reference is the string form of the id of a stored document. */
  ghost predicate BackReferencesResolve(documents: map<ObjectId, Document>, vectors: seq<VectorEntry>) {
    forall i :: 0 <= i < |vectors| ==>
      Parse(vectors[i].meta.mongoId).Some? && Parse(vectors[i].meta.mongoId).value in documents
  }

  class Stores {
    var documents: map<ObjectId, Document>
    var vectors: seq<VectorEntry>
    ghost var log: seq<Write>

    constructor ()
      ensures documents == map[] && vectors == [] && log == []
      ensures BackReferencesResolve(documents, vectors)
    {
      documents, vectors, log := map[], [], [];
    }

    /** `db.documents.insert_one(doc)`, under the fresh id the driver assigns. */
    method InsertOne(id: ObjectId, doc: Document)
      requires id !in documents
      modifies this
      ensures documents == old(documents)[id := doc]
      ensures vectors == old(vectors)
      ensures log == old(log) + [InsertDocument(id, doc)]
    {
      documents := documents[id := doc];
      log := log + [InsertDocument(id, doc)];
    }

    /** `collection.add(...)` of one entry. */
    method Add(entry: VectorEntry)
      modifies this
      ensures documents == old(documents)
      ensures vectors == old(vectors) + [entry]
      ensures log == old(log) + [AddVector(entry)]
    {
      vectors := vectors + [entry];
      log := log + [AddVector(entry)];
    }

    /** `db.documents.find().sort([("_id", -1)]).skip(skip).limit(limit)`: ids newest first. */
    method FindNewestFirst(skip: nat, limit: nat) returns (cursor: seq<ObjectId>)
      ensures cursor == Window(NewestFirst(documents.Keys), skip, limit)
    {
      var rest := documents.Keys;
      var order: seq<ObjectId> := [];
      while rest != {}
        invariant order + NewestFirst(rest) == NewestFirst(documents.Keys)
        decreases |rest|
      {
        NewestExists(rest);
        var m: ObjectId :| m in rest && IsNewest(m, rest);
        NewestFirstStep(rest, m);
        order := order + [m];
        rest := rest - {m};
      }
      cursor := Window(order, skip, limit);
    }
  }
}
