/**
 * The query endpoint (`POST /query`) and the id helper it uses: resolve the
 * ranked hits of the vector index against the document store, skipping
 * repeated and dangling hits, and ask the language model once with the
 * resolved texts as context.
 *
 * Embedding the question and the nearest-neighbour search are not modelled:
 * their result, the ranked metadata of the hits, is an input. The language
 * model is a function from prompt to answer.
 */
module ApiQuery {
  import opened Wrappers
  import opened Json
  import opened ObjectIds
  import opened Storage

  /** An HTTP error response, or an exception escaping the endpoint (a 500 response). */
  datatype Rejection = HttpError(status: int, detail: string) | Uncaught(exception: string)

  /** The value of `text` after the resolution step, or the exception it raises. */
  datatype Resolution = NoText | Text(value: Json) | NoGetOnSection

  /** What the loop has gathered: the (mongo_id, chunk_key) pairs seen, the contexts and their URLs. */
  datatype Scan = Scan(seen: set<(string, string)>, contexts: seq<Json>, sources: seq<string>)

  /** The endpoint's reply with the sources as a set: their listing order is not defined. */
  datatype Reply = Reply(answer: string, sources: set<string>)

  /** The reply as returned: `sources` is `list(set(sources))`. */
  datatype Response = Response(answer: string, sources: seq<string>)

  const InvalidIdDetail := "Invalid document ID: "
  const ContextSeparator := "\n\n"
  /** The number of hits asked for when the request does not say. */
  const DefaultTopK := 5

  /** `obj_id(id_str)`: the id a string names, or a 400 error naming the string. */
  function ObjId(idStr: string): (r: Result<ObjectId, Rejection>)
    ensures r.Success? <==> IsValid(idStr)
    ensures r.Success? ==> Format(r.value) == seq(|idStr|, i requires 0 <= i < |idStr| => LowerHex(idStr[i]))
    ensures r.Failure? ==> r.error == HttpError(400, InvalidIdDetail + idStr)
  {
    match Parse(idStr)
    case Some(id) => Success(id)
    case None => Failure(HttpError(400, InvalidIdDetail + idStr))
  }

  /** The string form of an id is accepted and names that id again. */
  lemma ObjIdOfFormat(id: ObjectId)
    ensures ObjId(Format(id)) == Success(id)
  {
    ParseFormat(id);
  }

  /** A valid id string without upper-case digits comes back unchanged from `str(obj_id(s))`. */
  lemma ObjIdRoundTrip(idStr: string)
    requires IsValid(idStr) && forall i :: 0 <= i < |idStr| ==> !('A' <= idStr[i] <= 'F')
    ensures ObjId(idStr).Success? && Format(ObjId(idStr).value) == idStr
  {
    assert seq(|idStr|, i requires 0 <= i < |idStr| => LowerHex(idStr[i])) == idStr;
  }

  /**
   * The text a hit resolves to in its document's data: `sections[chunk_key].text`
   * when `sections` is a dict (a falsy section gives none, a truthy section
   * that is not a dict raises), else `text` for the "content" key only.
   */
  function Resolve(data: seq<Field>, chunkKey: string): Resolution {
    match SectionDict(data)
    case Some(sections) =>
      (match Get(sections, chunkKey)
       case None => NoText
       case Some(section) => ResolveSection(section))
    case None =>
      if HasKey(data, "text") && chunkKey == "content" then Text(Get(data, "text").value) else NoText
  }

  /** `section.get("text")` on a section that was found. */
  function ResolveSection(section: Json): Resolution {
    if !Truthy(section) then NoText
    else match section
      case JObj(fields) => (match Get(fields, "text") case Some(t) => Text(t) case None => NoText)
      case _ => NoGetOnSection
  }

  /** With a `sections` dict, the document's `text` is never used, whatever the key. */
  lemma SectionsShadowText(data: seq<Field>, chunkKey: string)
    requires SectionDict(data).Some? && !HasKey(SectionDict(data).value, chunkKey)
    ensures Resolve(data, chunkKey) == NoText
  {
  }

  /** Without a `sections` dict, a hit resolves exactly when its key is "content" and the data has `text`. */
  lemma FallbackTextOnlyForContent(data: seq<Field>, chunkKey: string)
    requires SectionDict(data).None?
    ensures Resolve(data, chunkKey).Text? <==> chunkKey == "content" && HasKey(data, "text")
    ensures Resolve(data, chunkKey).Text? ==> Field("text", Resolve(data, chunkKey).value) in data
  {
  }

  function Pair(meta: Metadata): (string, string) {
    (meta.mongoId, meta.chunkKey)
  }

  /** The (mongo_id, chunk_key) pairs of a sequence of hits. */
  function PairsOf(hits: seq<Metadata>): set<(string, string)> {
    set i | 0 <= i < |hits| :: Pair(hits[i])
  }

  /** The loop body for one hit. */
  function ScanStep(documents: map<ObjectId, Document>, acc: Scan, meta: Metadata): Result<Scan, Rejection> {
    if Pair(meta) in acc.seen then Success(acc)
    else
      var seen := acc.seen + {Pair(meta)};
      match ObjId(meta.mongoId)
      case Failure(e) => Failure(e)
      case Success(id) =>
        if id !in documents then Success(acc.(seen := seen))
        else match Resolve(documents[id].data, meta.chunkKey)
          case NoGetOnSection => Failure(Uncaught("AttributeError"))
          case NoText => Success(acc.(seen := seen))
          case Text(t) =>
            if Truthy(t) then Success(Scan(seen, acc.contexts + [t], acc.sources + [meta.sourceUrl]))
            else Success(acc.(seen := seen))
  }

  /** The loop over the hits in rank order. */
  function ScanHits(documents: map<ObjectId, Document>, hits: seq<Metadata>): Result<Scan, Rejection>
    decreases |hits|
  {
    if hits == [] then Success(Scan({}, [], []))
    else
      match ScanHits(documents, hits[..|hits| - 1])
      case Failure(e) => Failure(e)
      case Success(acc) => ScanStep(documents, acc, hits[|hits| - 1])
  }

  /** The hit names a stored document in which its chunk key resolves to the text `t`. */
  predicate ResolvesTo(documents: map<ObjectId, Document>, meta: Metadata, t: Json) {
    && ObjId(meta.mongoId).Success?
    && ObjId(meta.mongoId).value in documents
    && Resolve(documents[ObjId(meta.mongoId).value].data, meta.chunkKey) == Text(t)
  }

  /**
   * One step records the hit's pair and either leaves the contexts and
   * sources alone or, for a new pair whose document is stored and whose key
   * resolves there to truthy text, appends that text and the hit's URL.
   */
  lemma ScanStepSpec(documents: map<ObjectId, Document>, acc: Scan, meta: Metadata)
    requires ScanStep(documents, acc, meta).Success?
    ensures ScanStep(documents, acc, meta).value.seen == acc.seen + {Pair(meta)}
    ensures var next := ScanStep(documents, acc, meta).value;
      || (next.contexts == acc.contexts && next.sources == acc.sources)
      || (&& Pair(meta) !in acc.seen
          && |next.contexts| == |acc.contexts| + 1
          && next.contexts[..|acc.contexts|] == acc.contexts
          && Truthy(next.contexts[|acc.contexts|])
          && ResolvesTo(documents, meta, next.contexts[|acc.contexts|])
          && next.sources == acc.sources + [meta.sourceUrl])
  {
    var next := ScanStep(documents, acc, meta).value;
    if next.contexts != acc.contexts {
      assert next.contexts[..|acc.contexts|] == acc.contexts;
    }
  }

  /**
   * What the loop holds after a run over `hits` to the end: exactly the hits'
   * pairs seen, one context per source and never more than the distinct
   * pairs, only truthy contexts, and each source the URL of a hit whose
   * stored document gives, under the hit's key, the context at its position.
   */
  predicate Gathered(documents: map<ObjectId, Document>, scan: Scan, hits: seq<Metadata>) {
    && scan.seen == PairsOf(hits)
    && |scan.contexts| == |scan.sources| <= |scan.seen|
    && (forall i :: 0 <= i < |scan.contexts| ==> Truthy(scan.contexts[i]))
    && (forall i :: 0 <= i < |scan.sources| ==>
          exists h :: h in hits && h.sourceUrl == scan.sources[i] && ResolvesTo(documents, h, scan.contexts[i]))
  }

  lemma ScanStepKeeps(documents: map<ObjectId, Document>, acc: Scan, hits: seq<Metadata>, meta: Metadata)
    requires Gathered(documents, acc, hits) && ScanStep(documents, acc, meta).Success?
    ensures Gathered(documents, ScanStep(documents, acc, meta).value, hits + [meta])
  {
    var next := ScanStep(documents, acc, meta).value;
    var all := hits + [meta];
    ScanStepSpec(documents, acc, meta);
    assert PairsOf(all) == PairsOf(hits) + {Pair(meta)} by {
      assert forall i :: 0 <= i < |hits| ==> all[i] == hits[i];
      assert all[|hits|] == meta;
    }
    assert forall h :: h in hits ==> h in all;
    if next.contexts == acc.contexts && next.sources == acc.sources {
      assert |acc.seen| <= |next.seen|;
      forall i | 0 <= i < |next.sources|
        ensures exists h :: h in all && h.sourceUrl == next.sources[i] && ResolvesTo(documents, h, next.contexts[i])
      {
        var h :| h in hits && h.sourceUrl == acc.sources[i] && ResolvesTo(documents, h, acc.contexts[i]);
        assert h in all;
      }
    } else {
      assert |next.seen| == |acc.seen| + 1;
      forall i | 0 <= i < |next.contexts|
        ensures Truthy(next.contexts[i])
      {
        if i < |acc.contexts| {
          assert next.contexts[i] == next.contexts[..|acc.contexts|][i];
        }
      }
      forall i | 0 <= i < |next.sources|
        ensures exists h :: h in all && h.sourceUrl == next.sources[i] && ResolvesTo(documents, h, next.contexts[i])
      {
        if i < |acc.sources| {
          assert next.sources[i] == acc.sources[i];
          assert next.contexts[i] == next.contexts[..|acc.contexts|][i];
          var h :| h in hits && h.sourceUrl == acc.sources[i] && ResolvesTo(documents, h, acc.contexts[i]);
          assert h in all;
        } else {
          assert next.sources[i] == meta.sourceUrl && meta in all;
        }
      }
    }
  }

  /** A run of the loop to the end leaves it `Gathered` over the hits. */
  lemma {:induction false} ScanHitsSpec(documents: map<ObjectId, Document>, hits: seq<Metadata>)
    requires ScanHits(documents, hits).Success?
    ensures Gathered(documents, ScanHits(documents, hits).value, hits)
    decreases |hits|
  {
    if hits == [] {
      assert PairsOf(hits) == {};
    } else {
      var prefix := hits[..|hits| - 1];
      assert hits == prefix + [hits[|hits| - 1]];
      ScanHitsSpec(documents, prefix);
      ScanStepKeeps(documents, ScanHits(documents, prefix).value, prefix, hits[|hits| - 1]);
    }
  }

  /** Once the loop has raised, the query fails with that error whatever hits follow. */
  lemma {:induction false} ScanFailurePersists(documents: map<ObjectId, Document>, hits: seq<Metadata>, i: nat)
    requires i <= |hits| && ScanHits(documents, hits[..i]).Failure?
    ensures ScanHits(documents, hits) == ScanHits(documents, hits[..i])
    decreases |hits|
  {
    if i < |hits| {
      var prefix := hits[..|hits| - 1];
      assert prefix[..i] == hits[..i];
      ScanFailurePersists(documents, prefix, i);
    } else {
      assert hits[..i] == hits;
    }
  }

  /** A hit whose pair was already seen changes nothing. */
  lemma RepeatedHitIgnored(documents: map<ObjectId, Document>, hits: seq<Metadata>, meta: Metadata)
    requires ScanHits(documents, hits).Success? && Pair(meta) in PairsOf(hits)
    ensures ScanHits(documents, hits + [meta]) == ScanHits(documents, hits)
  {
    ScanHitsSpec(documents, hits);
    assert (hits + [meta])[..|hits|] == hits;
  }

  /** A new hit with a valid id naming no stored document is skipped: only its pair is recorded. */
  lemma MissingDocumentSkipped(documents: map<ObjectId, Document>, hits: seq<Metadata>, meta: Metadata)
    requires ScanHits(documents, hits).Success? && Pair(meta) !in PairsOf(hits)
    requires IsValid(meta.mongoId) && ObjId(meta.mongoId).value !in documents
    ensures ScanHits(documents, hits + [meta]).Success?
    ensures ScanHits(documents, hits + [meta]).value.contexts == ScanHits(documents, hits).value.contexts
    ensures ScanHits(documents, hits + [meta]).value.sources == ScanHits(documents, hits).value.sources
  {
    ScanHitsSpec(documents, hits);
    assert (hits + [meta])[..|hits|] == hits;
  }

  /** A new hit whose stored document gives no text, or falsy text, under its key is skipped: only its pair is recorded. */
  lemma UnresolvedHitSkipped(documents: map<ObjectId, Document>, hits: seq<Metadata>, meta: Metadata)
    requires ScanHits(documents, hits).Success? && Pair(meta) !in PairsOf(hits)
    requires IsValid(meta.mongoId) && ObjId(meta.mongoId).value in documents
    requires Resolve(documents[ObjId(meta.mongoId).value].data, meta.chunkKey) == NoText
          || (&& Resolve(documents[ObjId(meta.mongoId).value].data, meta.chunkKey).Text?
              && !Truthy(Resolve(documents[ObjId(meta.mongoId).value].data, meta.chunkKey).value))
    ensures ScanHits(documents, hits + [meta]).Success?
    ensures ScanHits(documents, hits + [meta]).value.seen == ScanHits(documents, hits).value.seen + {Pair(meta)}
    ensures ScanHits(documents, hits + [meta]).value.contexts == ScanHits(documents, hits).value.contexts
    ensures ScanHits(documents, hits + [meta]).value.sources == ScanHits(documents, hits).value.sources
  {
    ScanHitsSpec(documents, hits);
    assert (hits + [meta])[..|hits|] == hits;
  }

  /**
   * The first hit of a pair whose stored document has, under its key, a
   * truthy section that is not a dict fails the whole query with the
   * AttributeError of `section.get`, whatever follows.
   */
  lemma SectionWithoutGetRejectsQuery(documents: map<ObjectId, Document>, hits: seq<Metadata>, meta: Metadata, rest: seq<Metadata>)
    requires ScanHits(documents, hits).Success? && Pair(meta) !in PairsOf(hits)
    requires IsValid(meta.mongoId) && ObjId(meta.mongoId).value in documents
    requires Resolve(documents[ObjId(meta.mongoId).value].data, meta.chunkKey) == NoGetOnSection
    ensures ScanHits(documents, hits + [meta] + rest) == Failure(Uncaught("AttributeError"))
  {
    ScanHitsSpec(documents, hits);
    var all := hits + [meta] + rest;
    assert all[..|hits| + 1] == hits + [meta];
    assert (hits + [meta])[..|hits|] == hits;
    ScanFailurePersists(documents, all, |hits| + 1);
  }

  /** The first hit of a pair with a malformed id fails the whole query with a 400, whatever follows. */
  lemma MalformedIdRejectsQuery(documents: map<ObjectId, Document>, hits: seq<Metadata>, meta: Metadata, rest: seq<Metadata>)
    requires ScanHits(documents, hits).Success? && Pair(meta) !in PairsOf(hits) && !IsValid(meta.mongoId)
    ensures ScanHits(documents, hits + [meta] + rest) == Failure(HttpError(400, "Invalid document ID: " + meta.mongoId))
  {
    ScanHitsSpec(documents, hits);
    var all := hits + [meta] + rest;
    assert all[..|hits| + 1] == hits + [meta];
    assert (hits + [meta])[..|hits|] == hits;
    ScanFailurePersists(documents, all, |hits| + 1);
  }

  /** A new hit that resolves to truthy text appends that text and the hit's URL, in rank order. */
  lemma ResolvedHitAppended(documents: map<ObjectId, Document>, hits: seq<Metadata>, meta: Metadata)
    requires ScanHits(documents, hits).Success? && Pair(meta) !in PairsOf(hits)
    requires IsValid(meta.mongoId) && ObjId(meta.mongoId).value in documents
    requires Resolve(documents[ObjId(meta.mongoId).value].data, meta.chunkKey).Text?
    requires Truthy(Resolve(documents[ObjId(meta.mongoId).value].data, meta.chunkKey).value)
    ensures ScanHits(documents, hits + [meta]).Success?
    ensures ScanHits(documents, hits + [meta]).value.contexts
         == ScanHits(documents, hits).value.contexts
            + [Resolve(documents[ObjId(meta.mongoId).value].data, meta.chunkKey).value]
    ensures ScanHits(documents, hits + [meta]).value.sources
         == ScanHits(documents, hits).value.sources + [meta.sourceUrl]
  {
    ScanHitsSpec(documents, hits);
    assert (hits + [meta])[..|hits|] == hits;
  }

  /** `sep.join(parts)`. */
  function Join(parts: seq<string>, sep: string): string {
    if parts == [] then ""
    else if |parts| == 1 then parts[0]
    else parts[0] + sep + Join(parts[1..], sep)
  }

  /** Joining two non-empty runs of parts is joining each and putting one separator between them. */
  lemma {:induction false} JoinAppend(a: seq<string>, b: seq<string>, sep: string)
    requires a != [] && b != []
    ensures Join(a + b, sep) == Join(a, sep) + sep + Join(b, sep)
    decreases |a|
  {
    if |a| == 1 {
      assert (a + b)[1..] == b;
    } else {
      assert (a + b)[1..] == a[1..] + b;
      JoinAppend(a[1..], b, sep);
    }
  }

  /** The contexts as strings, or None when one is not a string (`join` then raises TypeError). */
  function ContextStrings(contexts: seq<Json>): (r: Option<seq<string>>)
    ensures r.Some? <==> forall i :: 0 <= i < |contexts| ==> contexts[i].JStr?
    ensures r.Some? ==> |r.value| == |contexts| && forall i :: 0 <= i < |contexts| ==> contexts[i] == JStr(r.value[i])
  {
    if forall i :: 0 <= i < |contexts| ==> contexts[i].JStr? then
      Some(seq(|contexts|, i requires 0 <= i < |contexts| => contexts[i].s))
    else None
  }

  /** The prompt sent to the language model. */
  function Prompt(question: string, context: string): string {
    "Use the following contexts to answer the question.\n" + context + "\n\nQuestion: " + question + "\nAnswer:"
  }

  function Elements(s: seq<string>): set<string> {
    set x | x in s
  }

  /** The whole endpoint, with the sources as a set. */
  function Answer(documents: map<ObjectId, Document>, question: string, hits: seq<Metadata>, complete: string -> string)
    : Result<Reply, Rejection>
  {
    match ScanHits(documents, hits)
    case Failure(e) => Failure(e)
    case Success(scan) =>
      match ContextStrings(scan.contexts)
      case None => Failure(Uncaught("TypeError"))
      case Some(texts) => Success(Reply(complete(Prompt(question, Join(texts, ContextSeparator))), Elements(scan.sources)))
  }

  /** Distinct pairs are never more than the hits. */
  lemma {:induction false} PairsBound(hits: seq<Metadata>)
    ensures |PairsOf(hits)| <= |hits|
    decreases |hits|
  {
    if hits != [] {
      var prefix := hits[..|hits| - 1];
      assert PairsOf(hits) == PairsOf(prefix) + {Pair(hits[|hits| - 1])} by {
        assert forall i :: 0 <= i < |prefix| ==> prefix[i] == hits[i];
      }
      PairsBound(prefix);
    }
  }

  lemma {:induction false} ElementsBound(s: seq<string>)
    ensures |Elements(s)| <= |s|
    decreases |s|
  {
    if s != [] {
      var prefix := s[..|s| - 1];
      assert s == prefix + [s[|s| - 1]];
      assert Elements(s) == Elements(prefix) + {s[|s| - 1]};
      ElementsBound(prefix);
    }
  }

  /** The hit names a stored document in which its chunk key resolves to truthy text. */
  predicate Contributes(documents: map<ObjectId, Document>, meta: Metadata) {
    && ObjId(meta.mongoId).Success?
    && ObjId(meta.mongoId).value in documents
    && Resolve(documents[ObjId(meta.mongoId).value].data, meta.chunkKey).Text?
    && Truthy(Resolve(documents[ObjId(meta.mongoId).value].data, meta.chunkKey).value)
  }

  /**
   * The sources are URLs of hits that resolved to truthy text, and there are
   * no more of them than hits: with at most `top_k` hits, at most `top_k`
   * sources.
   */
  lemma SourcesBound(documents: map<ObjectId, Document>, question: string, hits: seq<Metadata>, complete: string -> string)
    requires Answer(documents, question, hits, complete).Success?
    ensures |Answer(documents, question, hits, complete).value.sources| <= |hits|
    ensures |hits| <= DefaultTopK ==> |Answer(documents, question, hits, complete).value.sources| <= DefaultTopK
    ensures forall u :: u in Answer(documents, question, hits, complete).value.sources ==>
      exists h :: h in hits && h.sourceUrl == u && Contributes(documents, h)
  {
    var scan := ScanHits(documents, hits).value;
    ScanHitsSpec(documents, hits);
    ElementsBound(scan.sources);
    PairsBound(hits);
    assert Answer(documents, question, hits, complete).value.sources == Elements(scan.sources);
    forall u | u in Elements(scan.sources)
      ensures exists h :: h in hits && h.sourceUrl == u && Contributes(documents, h)
    {
      var i :| 0 <= i < |scan.sources| && scan.sources[i] == u;
      var h :| h in hits && h.sourceUrl == u && ResolvesTo(documents, h, scan.contexts[i]);
      assert Contributes(documents, h);
    }
  }

  /** With no resolved hit the model is still asked, with an empty context, and there are no sources. */
  lemma NoResolvedHitStillAsks(documents: map<ObjectId, Document>, question: string, hits: seq<Metadata>, complete: string -> string)
    requires ScanHits(documents, hits).Success? && ScanHits(documents, hits).value.contexts == []
    ensures Answer(documents, question, hits, complete) == Success(Reply(complete(Prompt(question, "")), {}))
  {
    ScanHitsSpec(documents, hits);
    assert ScanHits(documents, hits).value.sources == [];
    assert Elements([]) == {};
  }

  /** `list(set(xs))`: the distinct elements of a set, in an order the model leaves open. */
  method ListOfSet(s: set<string>) returns (xs: seq<string>)
    ensures Elements(xs) == s
    ensures forall i, j :: 0 <= i < j < |xs| ==> xs[i] != xs[j]
  {
    xs := [];
    var rest := s;
    while rest != {}
      invariant rest !! Elements(xs) && rest + Elements(xs) == s
      invariant forall i, j :: 0 <= i < j < |xs| ==> xs[i] != xs[j]
      decreases |rest|
    {
      var x :| x in rest;
      assert x !in Elements(xs);
      assert Elements(xs + [x]) == Elements(xs) + {x};
      xs := xs + [x];
      assert |rest - {x}| == |rest| - 1;
      rest := rest - {x};
    }
  }

  /**
   * `query(item)`: the reply of `Answer`, with the sources listed once each
   * in some order; a rejection is the error the loop or the join raised.
   */
  method Query(stores: Stores, question: string, hits: seq<Metadata>, complete: string -> string)
    returns (r: Result<Response, Rejection>)
    ensures Answer(stores.documents, question, hits, complete).Failure? ==>
      r == Failure(Answer(stores.documents, question, hits, complete).error)
    ensures Answer(stores.documents, question, hits, complete).Success? ==>
      && r.Success?
      && r.value.answer == Answer(stores.documents, question, hits, complete).value.answer
      && Elements(r.value.sources) == Answer(stores.documents, question, hits, complete).value.sources
      && forall i, j :: 0 <= i < j < |r.value.sources| ==> r.value.sources[i] != r.value.sources[j]
  {
    var seen: set<(string, string)> := {};
    var contexts: seq<Json> := [];
    var sources: seq<string> := [];
    for i := 0 to |hits|
      invariant ScanHits(stores.documents, hits[..i]) == Success(Scan(seen, contexts, sources))
    {
      assert hits[..i + 1][..i] == hits[..i];
      var meta := hits[i];
      var pair := (meta.mongoId, meta.chunkKey);
      if pair in seen {
        continue;
      }
      seen := seen + {pair};
      var id := ObjId(meta.mongoId);
      if id.Failure? {
        ScanFailurePersists(stores.documents, hits, i + 1);
        return Failure(id.error);
      }
      if id.value !in stores.documents {
        continue;
      }
      var data := stores.documents[id.value].data;
      var text := Resolve(data, meta.chunkKey);
      if text.NoGetOnSection? {
        ScanFailurePersists(stores.documents, hits, i + 1);
        return Failure(Uncaught("AttributeError"));
      }
      if text.Text? && Truthy(text.value) {
        contexts := contexts + [text.value];
        sources := sources + [meta.sourceUrl];
      }
    }
    assert hits[..|hits|] == hits;
    var texts := ContextStrings(contexts);
    if texts.None? {
      return Failure(Uncaught("TypeError"));
    }
    var answer := complete(Prompt(question, Join(texts.value, ContextSeparator)));
    var listed := ListOfSet(Elements(sources));
    return Success(Response(answer, listed));
  }
}
