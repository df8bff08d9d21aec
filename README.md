# neuraldocs: ingestion, query resolution and listing

This is a model of the decision logic of neuraldocs, a retrieval-augmented question-answering service. It covers three parts:

- **Ingestion** (`process_url`, app/tasks.py). A background job fetches a web page and extracts its text, then has a language model structure it as JSON. It stores `{url, data}` as a document in MongoDB and splits the data into chunks. For every chunk with non-blank text it adds a vector-index entry. Each entry's metadata `{mongo_id, chunk_key, source_url}` points back to the document.
- **Query** (`query` and `obj_id`, app/main.py). The endpoint takes the ranked metadata hits of a nearest-neighbour search and processes each `(mongo_id, chunk_key)` pair once. It looks up the document, resolves the chunk's text and collects texts and source URLs in rank order. It then asks the language model once, with the texts joined as context.
- **Listing** (`list_documents`, app/main.py). This endpoint returns the stored documents newest first, one hundred to a page, with their titles.

## How the system is modelled

- **JSON.** JSON values form a datatype, and a JSON object is an ordered list of fields (`json.dfy`).
  - `Get` is Python's `dict.get`.
  - `Truthy` is Python truthiness.
  - `Strip` is `str.strip()` over the characters for which Python's `isspace` is true.
- **ObjectIds.** A document id is 24 hex nibbles (`object_ids.dfy`).
  - A string is a valid id when it is 24 hex digits of either case.
  - `str(id)` is lower-case hex.
  - `sort("_id", -1)` is descending lexicographic order over the nibbles, which is byte order.
- **The two stores.** They are the fields of class `Storage.Stores`: the document map, the sequence of vector entries, and a ghost log of writes that records the order of the writes.
- **Ingestion** (`tasks.dfy`).
  - `Tasks.ProcessUrl` follows `process_url` step by step on the stores. The chunk-building loop is `Tasks.BuildChunks` and the embedding loop is `Tasks.IndexChunks`.
  - Each method is proved against a specification function: `DerivedChunks`, `Entries`/`FirstRaise` and `Ingest`, which gives the whole effect of one run.
  - The lemmas of `IngestProperties` state what the job promises in terms of `Ingest`.
- **Query** (`api_query.dfy`).
  - `ApiQuery.Query` follows the loop of `query`. It is proved against `ScanHits`, a function that folds `ScanStep` over the hits, and against `Answer`.
  - Text resolution is the pure function `Resolve`.
- **Listing** (`api_documents.dfy`). `ApiDocuments.ListDocuments` follows `list_documents` and is proved against `PageOf`.
- **Round trip** (`consistency.dfy`). Every entry the job adds is resolved by the query endpoint back to that entry's text.

Python exceptions that escape the code are modelled as explicit outcomes:

- `Raised("AttributeError")` from the job;
- `Uncaught(...)` from the query.

### Behaviour a reader might not expect

- **`sources`.** The query returns `sources` as `list(set(urls))`. It is a list of distinct page URLs in no defined order, not a list of `{url, chunk_key}` records. `ApiQuery.Query` returns a duplicate-free list whose elements are exactly the set of collected URLs. The order is left open.
- **Exceptions after the insert.** `process_url` catches no exception after the insert. It raises `AttributeError`, with the document already stored and the earlier entries already added, in two cases:
  - a `sections` value that is not an object;
  - a chunk text that is truthy but not a string.

  The model returns `Raised` and keeps those writes (`IngestProperties.RaisesOnlyAfterInsert`).
- **Parsed objects without sections or text.** A parsed object with neither a `sections` object nor `text` is stored with no chunk, and the job completes (`IngestProperties.NoSectionsNoTextIndexesNothing`).
- **`{"text": ...}` output.** A structuring output `{"text": ...}` is accepted as it is (`IngestProperties.ParsedTextAcceptedAsIs`).
- **Non-string contexts.** In the query, a resolved text that is truthy but not a string (a number, a list) is collected. The join then raises `TypeError` (`ApiQuery.Answer`).

## Model

| member | source | states |
|---|---|---|
| Json.HasKey | app/tasks.py:66 | `key in d` for a JSON object |
| Json.DistinctKeys | app/main.py:85 | a JSON object as Python holds it: no key twice |
| Json.Get | app/tasks.py:68 | `d.get(key)`: None exactly when the key is absent; otherwise a value stored under that key |
| Json.GetOfDistinct | app/main.py:85 | in a dict (distinct keys), looking up a field's key gives that field's value |
| Json.Truthy | app/main.py:90 | Python truthiness of a JSON value: `None`, `False`, zero, `""`, `[]` and `{}` are falsy |
| Json.IsSpace | app/tasks.py:75 | the characters Python's `str.isspace` accepts |
| Json.Blank | app/tasks.py:75 | a string made only of white space, the strings `not s.strip()` holds of |
| Json.TrimStart | app/tasks.py:75 | `lstrip`: a suffix whose dropped prefix is all white space and which does not start with white space |
| Json.TrimEnd | app/tasks.py:75 | `rstrip`: a prefix whose dropped suffix is all white space and which does not end with white space |
| Json.Strip | app/tasks.py:75 | `s.strip()`: `rstrip` after `lstrip` |
| Json.StripEmptyIffBlank | app/tasks.py:75 | `s.strip()` is empty exactly when every character of `s` is white space |
| ObjectIds.IsValid | app/main.py:33-37 | the strings `ObjectId(s)` accepts from JSON metadata: 24 hex digits of either case |
| ObjectIds.DigitChar | app/main.py:125 | the hex digit of a nibble is lower-case and reads back as that nibble |
| ObjectIds.Parse | app/main.py:33-37 | an id is parsed exactly from a valid 24-hex-digit string, and its string form is the input in lower case |
| ObjectIds.Format | app/tasks.py:62 | `str(id)` is a valid id string without upper-case digits |
| ObjectIds.ParseFormat | app/main.py:33-37 | parsing the string form of an id gives the id back |
| ObjectIds.FormatInjective | app/main.py:125 | different ids have different string forms |
| ObjectIds.LexLess | app/main.py:120 | the `_id` order: lexicographic over the 24 nibbles, which is the order of the 12 bytes |
| ObjectIds.LexAsymmetric | app/main.py:120 | the `_id` order is asymmetric |
| ObjectIds.LexTransitive | app/main.py:120 | the `_id` order is transitive |
| ObjectIds.LexTotal | app/main.py:120 | any two different ids are ordered one way or the other |
| ObjectIds.NewestExists | app/main.py:120 | every non-empty set of ids has a greatest id |
| ObjectIds.NewestUnique | app/main.py:120 | the greatest id of a set is unique |
| ObjectIds.NewestFirst | app/main.py:120 | `sort([("_id", -1)])`: the ids of a set, greatest first, repeatedly |
| ObjectIds.NewestFirstContents | app/main.py:120 | sorting by `_id` descending lists every id of the set once and nothing else |
| ObjectIds.NewestFirstSorted | app/main.py:120 | sorting by `_id` descending lists the ids in strictly decreasing order |
| ObjectIds.NewestFirstStep | app/main.py:120 | the descending listing starts with the greatest id, followed by the listing of the rest |
| ObjectIds.NewestFirstDistinct | app/main.py:120 | the descending listing has no repeated id |
| Storage.AddWrites | app/tasks.py:78-82 | the log records of one `collection.add` per entry, in order |
| Storage.SectionDict | app/tasks.py:66 | `data["sections"]` when `"sections" in data` and it is a dict, else nothing |
| Storage.BackReferencesResolve | app/tasks.py:80 | every entry's `mongo_id` is the string form of the id of a stored document |
| Storage.AddWritesAppend | app/tasks.py:74-82 | the writes of consecutive runs of vector adds follow each other |
| Storage.Window | app/main.py:120 | `skip(n).limit(100)`, the one limit the code passes: at most 100 items, the items from position `n` on, none past the end |
| Storage.Stores.constructor | app/db.py:9-21 | the stores start empty, with every back-reference resolving |
| Storage.Stores.InsertOne | app/tasks.py:61 | `insert_one` adds the document under a fresh id and records one insert; the vector index is unchanged |
| Storage.Stores.Add | app/tasks.py:78-82 | `collection.add` appends one entry and records one add; documents are unchanged |
| Storage.Stores.FindNewestFirst | app/main.py:120 | the cursor is the window of the stored ids sorted by `_id` descending |
| Tasks.ExtractedContent | app/tasks.py:23-30 | the extracted text, or `Fetch/Extract error: <message>` for a fault and `Fetch/Extract error: Failed to extract content` for None or `""` |
| Tasks.DocumentData | app/tasks.py:44-57 | the parsed object, or `{"text": content}` when structuring failed |
| Tasks.SectionText | app/tasks.py:68 | `section.get("text", "")` |
| Tasks.DerivedChunks | app/tasks.py:65-71 | one `(key, text)` chunk per section of a `sections` dict, in mapping order; else `("content", data["text"])`; else none; nothing (a raise) when a section is not a dict |
| Tasks.ActionFor | app/tasks.py:74-77 | skip a falsy or blank text, raise on a truthy non-string, embed any other text |
| Tasks.ActionForCases | app/tasks.py:75-77 | a chunk's text is embedded exactly when it is a non-blank string, and raises exactly when it is truthy but not a string |
| Tasks.IsBlankText | app/tasks.py:75 | `not text.strip()` holds exactly of the strings made only of white space |
| Tasks.Entries | app/tasks.py:74-82 | the entries the loop adds for a list of chunks none of which raises, in order |
| Tasks.EntryOf | app/tasks.py:75-82 | the entry one chunk contributes: its own when its text is embedded, else none |
| Tasks.EntriesUpTo | app/tasks.py:74-82 | the entries of the first `i` chunks, gathered one chunk at a time |
| Tasks.NonBlankCount | app/tasks.py:75 | the number of chunks whose text is a non-blank string |
| Tasks.EntriesSpec | app/tasks.py:74-82 | each entry carries the document id string and the URL and comes from a chunk with that non-blank text; every such chunk has its entry; there are as many entries as chunks exactly when no text is blank |
| Tasks.EntriesCount | app/tasks.py:74-82 | the number of entries is the number of chunks whose text is a non-blank string |
| Tasks.EntriesAppend | app/tasks.py:74-82 | the entries of consecutive chunk lists follow each other |
| Tasks.SingleEntries | app/tasks.py:74-82 | a single chunk's entries are exactly the one it contributes: its entry when its text is embedded, else none |
| Tasks.EntriesStep | app/tasks.py:74-82 | the entries of one more chunk are those of the chunks before it followed by its own |
| Tasks.EntriesUpToPrefix | app/tasks.py:74-82 | accumulating entries chunk by chunk, as the loop does, gives the entries of the chunks processed so far |
| Tasks.EntriesUpToStep | app/tasks.py:74-82 | one more loop step keeps the accumulated entries equal to those of the chunks processed |
| Tasks.Ingest | app/tasks.py:17-84 | the whole effect of one run: the outcome, the inserted document if any, and the added entries up to the first raising chunk |
| Tasks.FirstRaise | app/tasks.py:74-77 | the index of the first chunk whose text raises: none raises before it, and the chunk there raises |
| Tasks.BuildChunks | app/tasks.py:65-71 | the chunk list is one chunk per section of a `sections` dict in mapping order (its `text` or `""`), else the `("content", text)` chunk, else empty; a section that is not a dict raises |
| Tasks.IndexChunk | app/tasks.py:74-82 | one loop step: raises exactly when the text is truthy but not a string; adds exactly the chunk's entry, and its one log record, when the text is a non-blank string; otherwise changes nothing |
| Tasks.IndexChunks | app/tasks.py:74-82 | adds, in order, the entry of every chunk with non-blank text up to the first chunk that raises; reports raising exactly when such a chunk exists; documents are unchanged |
| Tasks.ProcessUrl | app/tasks.py:17-84 | the job's outcome is `Ingest`'s; the documents gain exactly the inserted document, the index gains exactly the added entries, and the log shows the one insert before every add |
| IngestProperties.FetchFaultWritesNothing | app/tasks.py:23-30 | a fetch fault returns `Fetch/Extract error: <message>` and writes nothing |
| IngestProperties.NoContentWritesNothing | app/tasks.py:26-30 | no extracted text (None or empty) returns `Fetch/Extract error: Failed to extract content` and writes nothing |
| IngestProperties.InsertExactlyPastExtraction | app/tasks.py:44-62 | the document is inserted exactly when extraction gave text, with the parsed object or the fallback as data; inserting runs never return an error; runs that do not insert add nothing |
| IngestProperties.FallbackCompletes | app/tasks.py:44-84 | when structuring fails, the document is `{"url": url, "data": {"text": content}}`, the job completes with the document's id, and the only entry is the whole text under "content" unless it is blank |
| IngestProperties.AddedEntriesReferToDocument | app/tasks.py:78-81 | every added entry carries the inserted document's id string, the URL, and the key of a chunk whose text is the entry's non-blank text |
| IngestProperties.CompletedIndexesNonBlankChunks | app/tasks.py:74-84 | a completed run returns the document's id and has added the entries of all the chunks, one per chunk with non-blank text, so exactly `NonBlankCount` of them; as many as chunks exactly when no text is blank |
| IngestProperties.RaisesOnlyAfterInsert | app/tasks.py:60-77 | an exception escapes only after the insert, and only for a section that is not a dict or a truthy text that is not a string |
| IngestProperties.SingleChunk | app/tasks.py:74-82 | one chunk gives its entry exactly when its text is a non-blank string |
| IngestProperties.IngestKeepsBackReferences | app/tasks.py:60-82 | after a run, every vector entry's `mongo_id` still names a stored document |
| IngestProperties.TwoSectionDerivation | tests/test_tasks.py:8-68 | the two-section page derives the chunks "intro" and "body" with their texts |
| IngestProperties.TwoSectionIndexing | tests/test_tasks.py:8-68 | neither of those chunks raises, and both give entries |
| IngestProperties.TwoSectionsScenario | tests/test_tasks.py:8-68 | the two-section page completes with one insert of exactly that data and two vector adds |
| IngestProperties.ParsedTextAcceptedAsIs | tests/test_simple.py:87 | a structuring output `{"text": t}` is stored as it is and gives the one "content" entry |
| IngestProperties.NoSectionsNoTextIndexesNothing | app/tasks.py:65-71 | a parsed object with neither a `sections` dict nor `text` completes with no entry |
| ApiQuery.ObjId | app/main.py:33-37 | `obj_id` succeeds exactly on a valid id string, giving the id whose string form is the input in lower case; otherwise it fails with 400 `Invalid document ID: <input>` |
| ApiQuery.ObjIdOfFormat | app/main.py:33-37 | `obj_id(str(id))` is `id` |
| ApiQuery.ObjIdRoundTrip | app/main.py:33-37 | a valid lower-case id string comes back unchanged from `str(obj_id(s))` |
| ApiQuery.Resolve | app/main.py:82-89 | the value of `text` after the resolution step: a section's `text` when `sections` is a dict, else `data.text` for "content" only |
| ApiQuery.ResolveSection | app/main.py:85-87 | `section.get("text")` on a found section: none for a falsy section, an AttributeError for a truthy non-dict |
| ApiQuery.SectionsShadowText | app/main.py:84-87 | with a `sections` dict, a key missing from it resolves to no text, even when the data has `text` |
| ApiQuery.FallbackTextOnlyForContent | app/main.py:88-89 | without a `sections` dict, a hit resolves exactly when its key is "content" and the data has `text`, and then to that `text` |
| ApiQuery.PairsOf | app/main.py:73-78 | the `(mongo_id, chunk_key)` pairs of the hits |
| ApiQuery.ScanStep | app/main.py:73-92 | the loop body for one hit |
| ApiQuery.ScanHits | app/main.py:69-92 | the loop over the hits in rank order, or the first error it raises |
| ApiQuery.ResolvesTo | app/main.py:79-89 | a hit whose id names a stored document in which its key resolves to a given text |
| ApiQuery.Gathered | app/main.py:69-92 | what the loop holds: the pairs seen, truthy contexts, and each source paired with a hit resolving to the context at its position |
| ApiQuery.ScanStepSpec | app/main.py:76-92 | one hit records its pair, and either leaves the contexts and sources alone or, for a new pair whose document is stored and whose key resolves there to truthy text, appends exactly that text and the hit's URL together |
| ApiQuery.ScanStepKeeps | app/main.py:72-92 | one more hit keeps `Gathered`: seen pairs are the hits' pairs, contexts are truthy, and each source is paired, position by position, with a hit whose stored document resolves under its key to the context at that position |
| ApiQuery.ScanHitsSpec | app/main.py:69-92 | after the loop, the seen pairs are exactly the hits' pairs; there is one context per source, no more than distinct pairs; every context is truthy; `sources[i]` is the URL of a hit whose document is stored and whose key resolves there to `contexts[i]` |
| ApiQuery.UnresolvedHitSkipped | app/main.py:82-90 | a new hit whose stored document gives no text or falsy text under its key records its pair and adds no context and no source |
| ApiQuery.SectionWithoutGetRejectsQuery | app/main.py:84-87 | the first hit whose key names a truthy section that is not a dict fails the whole query with `AttributeError` |
| ApiQuery.ScanFailurePersists | app/main.py:79 | once a hit has raised, the query fails with that error whatever hits follow |
| ApiQuery.RepeatedHitIgnored | app/main.py:76-77 | a hit whose pair was already seen changes nothing |
| ApiQuery.MissingDocumentSkipped | app/main.py:79-81 | a new hit naming no stored document adds no context and no source |
| ApiQuery.MalformedIdRejectsQuery | app/main.py:79 | the first hit with a malformed id fails the whole query with 400 `Invalid document ID: <id>` |
| ApiQuery.ResolvedHitAppended | app/main.py:90-92 | a new hit resolving to truthy text appends that text and the hit's URL at the end, keeping rank order |
| ApiQuery.Join | app/main.py:95 | `sep.join(parts)` |
| ApiQuery.JoinAppend | app/main.py:95 | joining two runs of contexts puts exactly one `"\n\n"` between them |
| ApiQuery.ContextStrings | app/main.py:95 | the join succeeds exactly when every context is a string, and then uses those strings |
| ApiQuery.Prompt | app/main.py:96-99 | the prompt: the fixed instruction, the joined contexts, then the question |
| ApiQuery.Elements | app/main.py:110 | `set(xs)` |
| ApiQuery.Answer | app/main.py:59-110 | the whole endpoint: the loop's error, `TypeError` when a context is not a string, else the model's answer to the prompt and the set of sources |
| ApiQuery.Contributes | app/main.py:79-91 | a hit whose id names a stored document in which its key resolves to truthy text |
| ApiQuery.PairsBound | app/main.py:69-78 | there are no more distinct pairs than hits |
| ApiQuery.ElementsBound | app/main.py:110 | a set of URLs is no larger than the list it was made from |
| ApiQuery.SourcesBound | app/main.py:90-110 | every returned source is the URL of a hit whose stored document resolves under its key to truthy text; there are no more sources than hits, so at most `top_k` (default 5) |
| ApiQuery.NoResolvedHitStillAsks | app/main.py:94-110 | with no resolved hit, the model is still asked, with an empty context, and the sources are empty |
| ApiQuery.ListOfSet | app/main.py:110 | `list(set(urls))` lists each URL of the set exactly once |
| ApiQuery.Query | app/main.py:59-110 | the query fails with exactly `Answer`'s error, or answers `Answer`'s answer with the sources listed once each |
| ApiDocuments.EffectivePage | app/main.py:116-117 | a page below 1 is read as page 1, and any other page as itself |
| ApiDocuments.Skip | app/main.py:118 | the number skipped is a multiple of 100: 100 times (page - 1) |
| ApiDocuments.TitleOf | app/main.py:124 | the title is present exactly when the data's `title` is a string, and is then that string |
| ApiDocuments.ListingOf | app/main.py:123-125 | one listed document: `str(_id)`, its URL and its title |
| ApiDocuments.PageIds | app/main.py:118-120 | the ids of a page: the newest-first window after the skip, 100 long at most |
| ApiDocuments.PageIdsStored | app/main.py:118-120 | the ids on a page are stored ids, in the sorted order from the skip on |
| ApiDocuments.Listings | app/main.py:121-125 | the listings of a run of stored ids, in order |
| ApiDocuments.PageOf | app/main.py:113-126 | the reply: the effective page, 100, the total, and the listings of the page's ids |
| ApiDocuments.ListDocuments | app/main.py:113-126 | the listing is `PageOf`: the effective page, page size 100, the total count, and the window of documents newest first |
| ApiDocuments.PageBounds | app/main.py:113-126 | a page holds at most 100 documents: the remaining documents past the skip, capped at 100, and none past the end; it reports the store's total |
| ApiDocuments.PageNewestFirst | app/main.py:120 | within a page, documents come in strictly decreasing id order |
| ApiDocuments.EveryDocumentOnOnePage | app/main.py:118-120 | every stored document is listed on exactly one page |
| ApiDocuments.PositionOnPage | app/main.py:118-120 | a document listed on page p sits in the sorted order at p's skip plus its place on the page |
| Consistency.SectionsAreDict | app/main.py:84-85 | a `sections` object has no key twice, as any parsed dict |
| Consistency.ChunkResolves | app/main.py:82-89 | a chunk built from stored data with non-blank text resolves, under its key, to that text |
| Consistency.IngestedEntriesResolve | app/main.py:79-89 | every entry the job adds names the inserted document by an id `obj_id` accepts, and its key resolves there to the entry's text |
| Consistency.IngestedEntryAnswers | app/main.py:76-92 | once the job's document is stored, a first hit for an added entry contributes the entry's text and the page URL |

## Left out

- The HTTP fetch, its timeout and status check, and text extraction (`httpx`, `trafilatura`) are left out. Their combined outcome is an input: a fault with its message, or the extracted text or None.
- The structuring call and `json.loads` are left out. Their outcome is an input: a parsed JSON object, or a failure. A parsed value that is not an object (a list, a number) is not modelled. Python's `in` and indexing on such values do not carry over to a field list.
- The answering language model is a function from prompt to answer. A call that fails, or that returns no content, is not modelled.
- Embedding the question and the nearest-neighbour search are left out, because they are floating point and a foreign index. The ranked hits they produce are an input, and `top_k` only bounds their number.
- The embeddings stored with each vector entry and the entries' `uuid4` ids are left out. An entry is its metadata and its text.
- ObjectId generation is left out: the id the driver assigns to the inserted document is an input, assumed fresh.
- `ObjectIds.Parse` accepts exactly 24 hex digits. Inputs that bson's `ObjectId` would also accept are not modelled: 12-byte strings and `ObjectId` instances, which cannot occur in JSON metadata. Neither is the white space `bytes.fromhex` tolerates between digits.
- `get_current_job`, the RQ queue (`add_url`, `get_task`), the HTML front end (`get_ui`), `get_stats`, the database clients and the configuration loading are left out. They are transport, presentation or library code.
- Missing metadata fields (`meta.get` returning None) are not modelled: every hit carries the three strings the job writes.
- Concurrency between jobs and queries is not modelled. Each run is one sequential step on the stores.

- Failures of the stores and of the embedding model are not modelled: in the model `insert_one` (app/tasks.py:61), `encode` and `collection.add` (app/tasks.py:77-82), `find_one` (app/main.py:79) and `count_documents` and `find` (app/main.py:119-120) always succeed. In the code a driver, network or model error there escapes uncaught.
- IngestProperties.RaisesOnlyAfterInsert: names only the exceptions the job's own logic raises (a section that is not a dict, a truthy text that is not a string). A failing `insert_one`, `encode` or `collection.add` would also escape, and those failures are left out as above.
- ApiDocuments.Skip: the skip is an unbounded integer. The Mongo driver sends it as a 64-bit integer, so for a page whose skip does not fit, `find` fails instead of returning an empty page; that failure is not modelled.
- Storage.Window: a limit of 0 means "no limit" to the Mongo driver, but here it gives an empty window. The code only ever passes the page size 100, so only positive limits are modelled.
