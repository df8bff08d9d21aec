/**
 * The listing endpoint (`GET /documents`): the stored documents newest
 * first, one hundred to a page, with the total count.
 */
module ApiDocuments {
  import opened Wrappers
  import opened Json
  import opened ObjectIds
  import opened Storage

  const PageSize: nat := 100

  /** One listed document; the title is present only when the data holds a string title. */
  datatype Listing = Listing(id: string, url: string, title: Option<string>)

  datatype DocumentPage = DocumentPage(page: int, pageSize: nat, total: nat, documents: seq<Listing>)

  /** Page numbers below one are read as the first page. */
  function EffectivePage(page: int): (p: int)
    ensures p >= 1
    ensures page >= 1 ==> p == page
    ensures page < 1 ==> p == 1
  {
    if page < 1 then 1 else page
  }

  /** How many documents precede the page. */
  function Skip(page: int): (n: nat)
    ensures n % PageSize == 0
    ensures n / PageSize == EffectivePage(page) - 1
  {
    (EffectivePage(page) - 1) * PageSize
  }

  function TitleOf(data: seq<Field>): (t: Option<string>)
    ensures t.Some? <==> Get(data, "title").Some? && Get(data, "title").value.JStr?
    ensures t.Some? ==> Field("title", JStr(t.value)) in data
  {
    match Get(data, "title")
    case Some(JStr(s)) => Some(s)
    case _ => None
  }

  function ListingOf(id: ObjectId, doc: Document): Listing {
    Listing(Format(id), doc.url, TitleOf(doc.data))
  }

  /** The ids on a page: the window of the stored ids sorted by `_id` descending. */
  ghost function PageIds(documents: map<ObjectId, Document>, page: int): seq<ObjectId> {
    Window(NewestFirst(documents.Keys), Skip(page), PageSize)
  }

  /** The ids on a page are stored ids, each at its place in the sorted order past the skip. */
  lemma PageIdsStored(documents: map<ObjectId, Document>, page: int)
    ensures forall i :: 0 <= i < |PageIds(documents, page)| ==> PageIds(documents, page)[i] in documents
    ensures forall i :: 0 <= i < |PageIds(documents, page)| ==>
      Skip(page) + i < |NewestFirst(documents.Keys)| && PageIds(documents, page)[i] == NewestFirst(documents.Keys)[Skip(page) + i]
  {
    NewestFirstContents(documents.Keys);
    var s := NewestFirst(documents.Keys);
    var w := PageIds(documents, page);
    if Skip(page) < |s| {
      assert |w| == Min(PageSize, |s| - Skip(page));
      assert forall i :: 0 <= i < |w| ==> w[i] == s[Skip(page) + i];
    } else {
      assert w == [];
    }
  }

  /** The listings of stored documents, in the order of their ids. */
  function Listings(documents: map<ObjectId, Document>, ids: seq<ObjectId>): seq<Listing>
    requires forall i :: 0 <= i < |ids| ==> ids[i] in documents
  {
    seq(|ids|, i requires 0 <= i < |ids| => ListingOf(ids[i], documents[ids[i]]))
  }

  /** The page the endpoint returns for a store and a requested page number. */
  ghost function PageOf(documents: map<ObjectId, Document>, page: int): DocumentPage {
    PageIdsStored(documents, page);
    DocumentPage(EffectivePage(page), PageSize, |documents|, Listings(documents, PageIds(documents, page)))
  }

  /** `list_documents(page)`. */
  method ListDocuments(stores: Stores, page: int) returns (r: DocumentPage)
    ensures r == PageOf(stores.documents, page)
  {
    var p := page;
    if p < 1 {
      p := 1;
    }
    var skip := (p - 1) * PageSize;
    var total := |stores.documents|;
    var cursor := stores.FindNewestFirst(skip, PageSize);
    assert cursor == PageIds(stores.documents, page);
    PageIdsStored(stores.documents, page);
    var docs: seq<Listing> := [];
    for i := 0 to |cursor|
      invariant |docs| == i
      invariant forall j :: 0 <= j < i ==> docs[j] == ListingOf(cursor[j], stores.documents[cursor[j]])
    {
      var doc := stores.documents[cursor[i]];
      var title := TitleOf(doc.data);
      docs := docs + [Listing(Format(cursor[i]), doc.url, title)];
    }
    assert docs == Listings(stores.documents, cursor);
    return DocumentPage(p, PageSize, total, docs);
  }

  /** A page never holds more than a hundred documents, and reports the store's total. */
  lemma PageBounds(documents: map<ObjectId, Document>, page: int)
    ensures |PageOf(documents, page).documents| <= PageSize
    ensures PageOf(documents, page).total == |documents|
    ensures PageOf(documents, page).page == EffectivePage(page)
    ensures Skip(page) < |documents| ==>
      |PageOf(documents, page).documents| == Min(PageSize, |documents| - Skip(page))
    ensures Skip(page) >= |documents| ==> PageOf(documents, page).documents == []
  {
    NewestFirstContents(documents.Keys);
    assert |documents.Keys| == |documents|;
  }

  /** Within a page, documents come newest first: ids strictly decreasing. */
  lemma PageNewestFirst(documents: map<ObjectId, Document>, page: int, i: nat, j: nat)
    requires i < j < |PageOf(documents, page).documents|
    ensures exists a: ObjectId, b: ObjectId ::
      && a in documents && b in documents
      && PageOf(documents, page).documents[i] == ListingOf(a, documents[a])
      && PageOf(documents, page).documents[j] == ListingOf(b, documents[b])
      && LexLess(b, a)
  {
    PageIdsStored(documents, page);
    NewestFirstSorted(documents.Keys);
    var ids := PageIds(documents, page);
    var s := NewestFirst(documents.Keys);
    assert ids[i] == s[Skip(page) + i] && ids[j] == s[Skip(page) + j];
    assert LexLess(ids[j], ids[i]);
    assert PageOf(documents, page).documents[i] == ListingOf(ids[i], documents[ids[i]]);
    assert PageOf(documents, page).documents[j] == ListingOf(ids[j], documents[ids[j]]);
  }

  /** Every stored document is listed on exactly one page. */
  lemma EveryDocumentOnOnePage(documents: map<ObjectId, Document>, id: ObjectId)
    requires id in documents
    ensures exists p :: p >= 1 && ListingOf(id, documents[id]) in PageOf(documents, p).documents
    ensures forall p, q ::
      (&& 1 <= p && 1 <= q
       && ListingOf(id, documents[id]) in PageOf(documents, p).documents
       && ListingOf(id, documents[id]) in PageOf(documents, q).documents) ==> p == q
  {
    NewestFirstContents(documents.Keys);
    var s := NewestFirst(documents.Keys);
    var k :| 0 <= k < |s| && s[k] == id;
    var p := k / PageSize + 1;
    PageIdsStored(documents, p);
    assert Skip(p) == k - k % PageSize;
    assert PageIds(documents, p)[k % PageSize] == id;
    assert PageOf(documents, p).documents[k % PageSize] == ListingOf(id, documents[id]);
    forall p, q | 1 <= p && 1 <= q
      && ListingOf(id, documents[id]) in PageOf(documents, p).documents
      && ListingOf(id, documents[id]) in PageOf(documents, q).documents
      ensures p == q
    {
      var x := PositionOnPage(documents, id, p);
      var y := PositionOnPage(documents, id, q);
      NewestFirstDistinct(documents.Keys);
      assert Skip(p) + x == Skip(q) + y;
    }
  }

  /** A document listed on page `p` sits at `p`'s skip plus its place on the page in the sorted order. */
  lemma PositionOnPage(documents: map<ObjectId, Document>, id: ObjectId, p: int) returns (j: nat)
    requires id in documents && p >= 1
    requires ListingOf(id, documents[id]) in PageOf(documents, p).documents
    ensures j < PageSize && Skip(p) + j < |NewestFirst(documents.Keys)|
    ensures NewestFirst(documents.Keys)[Skip(p) + j] == id
  {
    PageIdsStored(documents, p);
    var ids := PageIds(documents, p);
    var page := PageOf(documents, p).documents;
    var i :| 0 <= i < |page| && page[i] == ListingOf(id, documents[id]);
    assert page[i] == ListingOf(ids[i], documents[ids[i]]);
    FormatInjective(ids[i], id);
    j := i;
  }
}
