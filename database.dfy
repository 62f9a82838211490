/** The documents table: one row per submitted URL, carrying the lifecycle
    status of its ingestion. */
module Database {
  import opened Wrappers

  /** The four states of an ingestion; no other value can be stored. */
  datatype IngestionStatus = Pending | Processing | Completed | Failed

  /** Row identifiers. The service draws them from uuid4; here they come from
      a supply of fresh numbers. */
  type DocId = nat

  /** A row of the documents table (timestamps are not modelled). */
  datatype Document = Document(
    id: DocId,
    sourceUrl: string,
    status: IngestionStatus,
    errorMessage: Option<string>)

  /** A row as it is first inserted: only the id and the URL are given, the
      status column defaults to PENDING and the nullable error column is
      empty. */
  function NewDocument(id: DocId, sourceUrl: string): (d: Document)
    ensures d.id == id && d.sourceUrl == sourceUrl
    ensures d.status == Pending && d.errorMessage == None
  {
    Document(id, sourceUrl, Pending, None)
  }

  /** Some row already carries `url` (the query `filter(source_url == url).first()`
      finds a row). */
  predicate UrlTaken(docs: map<DocId, Document>, url: string)
  {
    exists id :: id in docs && docs[id].sourceUrl == url
  }

  /** The ids of the rows that carry `url`. */
  function DocsWithUrl(docs: map<DocId, Document>, url: string): set<DocId>
  {
    set id | id in docs && docs[id].sourceUrl == url
  }

  /** Every row is stored under its own id. */
  ghost predicate Keyed(docs: map<DocId, Document>)
  {
    forall id :: id in docs ==> docs[id].id == id
  }

  /** The unique constraint on `source_url`. */
  ghost predicate UniqueUrls(docs: map<DocId, Document>)
  {
    forall a, b :: a in docs && b in docs && docs[a].sourceUrl == docs[b].sourceUrl ==> a == b
  }

  /** Under the unique constraint a URL that is taken is carried by exactly
      one row. */
  lemma OneDocPerUrl(docs: map<DocId, Document>, url: string)
    requires UniqueUrls(docs) && UrlTaken(docs, url)
    ensures exists id :: DocsWithUrl(docs, url) == {id}
    ensures |DocsWithUrl(docs, url)| == 1
  {
    var id :| id in docs && docs[id].sourceUrl == url;
    assert DocsWithUrl(docs, url) == {id};
  }

  /** Inserting a new row for a URL no row carries keeps the constraint, and
      the URL is then taken. */
  lemma InsertKeepsUniqueUrls(docs: map<DocId, Document>, id: DocId, url: string)
    requires UniqueUrls(docs) && !UrlTaken(docs, url)
    ensures UniqueUrls(docs[id := NewDocument(id, url)])
    ensures UrlTaken(docs[id := NewDocument(id, url)], url)
  {
    var docs' := docs[id := NewDocument(id, url)];
    assert id in docs' && docs'[id].sourceUrl == url;
  }

  /** `after` holds the same rows as `before`, each with the same id and
      URL: only the status and error columns may differ. */
  ghost predicate SameRows(before: map<DocId, Document>, after: map<DocId, Document>)
  {
    before.Keys == after.Keys &&
    forall id :: id in before ==> after[id].id == before[id].id && after[id].sourceUrl == before[id].sourceUrl
  }

  /** Rewriting the status or error column of a row keeps the table's
      constraints. */
  lemma RewriteRowKeepsConstraints(docs: map<DocId, Document>, id: DocId, doc: Document)
    requires id in docs && doc.id == docs[id].id && doc.sourceUrl == docs[id].sourceUrl
    requires Keyed(docs) && UniqueUrls(docs)
    ensures SameRows(docs, docs[id := doc])
    ensures Keyed(docs[id := doc]) && UniqueUrls(docs[id := doc])
  {
  }
}
