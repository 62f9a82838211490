/** The HTTP endpoints: submit a URL for ingestion, read a document's
    status, and ask a question. The application holds the backend state and
    the log of ingestion jobs handed to the job queue. */
module Api {
  import opened Wrappers
  import opened Database
  import opened Ingestion
  import opened Answer
  import opened Services

  /** A task handed to the queue: `process_ingestion_task.delay(id, url)`. */
  datatype Job = Job(documentId: DocId, url: string)

  /** The body of an accepted submission (the status URL that the framework
      builds from the id is not modelled). */
  datatype IngestResponse = IngestResponse(message: string, documentId: DocId)

  /** An endpoint's reply: a status code with a body, or an HTTP error. */
  datatype Response<T> = Ok(code: int, body: T) | HttpError(code: int, detail: string)

  const ACCEPTED: string := "URL accepted for ingestion."
  const DUPLICATE_URL: string := "This URL has already been submitted."
  const NOT_FOUND: string := "Document not found."
  const EMPTY_QUESTION: string := "Question cannot be empty."
  /** The body of the framework's reply to an exception no handler caught. */
  const SERVER_ERROR: string := "Internal Server Error"

  class App {
    const backend: Backend
    /** Jobs dispatched to the job queue, in order. */
    var jobs: seq<Job>

    /** The backend is consistent; every dispatched job names an existing
        row and that row's URL; no row was dispatched twice. */
    ghost predicate Valid()
      reads this, backend
    {
      backend.Valid() &&
      (forall k :: 0 <= k < |jobs| ==>
         jobs[k].documentId in backend.docs && backend.docs[jobs[k].documentId].sourceUrl == jobs[k].url) &&
      (forall k, l :: 0 <= k < l < |jobs| ==> jobs[k].documentId != jobs[l].documentId)
    }

    constructor ()
      ensures Valid() && fresh(backend)
      ensures backend.docs == map[] && backend.index == [] && jobs == []
    {
      backend := new Backend();
      jobs := [];
    }

    /** `ingest_url`. A URL some row already carries is refused with 409:
        nothing is written and nothing is dispatched. Otherwise one new row
        is inserted under a fresh id with the column defaults (PENDING, no
        error message), exactly one job carrying that id and URL is
        dispatched, and 202 is returned with the id. */
    method IngestUrl(url: string) returns (r: Response<IngestResponse>)
      requires Valid()
      modifies this, backend
      ensures Valid()
      ensures UrlTaken(old(backend.docs), url) ==>
                r == HttpError(409, DUPLICATE_URL) &&
                backend.docs == old(backend.docs) && jobs == old(jobs)
      ensures !UrlTaken(old(backend.docs), url) ==>
                r.Ok? && r.code == 202 && r.body.message == ACCEPTED &&
                r.body.documentId !in old(backend.docs) &&
                backend.docs == old(backend.docs)[r.body.documentId := NewDocument(r.body.documentId, url)] &&
                jobs == old(jobs) + [Job(r.body.documentId, url)]
      ensures UrlTaken(backend.docs, url)
      ensures backend.index == old(backend.index) && backend.trace == old(backend.trace)
      ensures backend.searches == old(backend.searches) && backend.chats == old(backend.chats)
    {
      if UrlTaken(backend.docs, url) {
        return HttpError(409, DUPLICATE_URL);
      }
      var id := backend.nextDocId;
      backend.nextDocId := backend.nextDocId + 1;
      InsertKeepsUniqueUrls(backend.docs, id, url);
      backend.docs := backend.docs[id := NewDocument(id, url)];
      jobs := jobs + [Job(id, url)];
      r := Ok(202, IngestResponse(ACCEPTED, id));
    }

    /** `get_ingestion_status`: the stored row, or 404 for an unknown id. */
    method GetIngestionStatus(documentId: DocId) returns (r: Response<Document>)
      ensures documentId in backend.docs ==> r == Ok(200, backend.docs[documentId])
      ensures documentId !in backend.docs ==> r == HttpError(404, NOT_FOUND)
    {
      if documentId !in backend.docs {
        return HttpError(404, NOT_FOUND);
      }
      r := Ok(200, backend.docs[documentId]);
    }

    /** `query_knowledge_base`: an empty question is refused with 400 before
        any call; otherwise the answer of `perform_query` with 200, or, when
        one of its foreign calls raised, the framework's 500 reply. */
    method QueryKnowledgeBase(
      question: string, topK: int,
      embedding: Outcome<Vector>, search: Outcome<seq<SearchHit>>, chat: Outcome<string>)
      returns (r: Response<QueryResponse>)
      modifies backend`searches, backend`chats
      ensures |question| == 0 ==>
                r == HttpError(400, EMPTY_QUESTION) &&
                backend.searches == old(backend.searches) && backend.chats == old(backend.chats)
      ensures |question| > 0 && embedding.Raised? ==>
                r == HttpError(500, SERVER_ERROR) &&
                backend.searches == old(backend.searches) && backend.chats == old(backend.chats)
      ensures |question| > 0 && embedding.Returned? ==>
                backend.searches == old(backend.searches) + [SearchRequest(question, topK)]
      ensures |question| > 0 && embedding.Returned? && search.Raised? ==>
                r == HttpError(500, SERVER_ERROR) && backend.chats == old(backend.chats)
      ensures |question| > 0 && embedding.Returned? && search.Returned? && |search.value| == 0 ==>
                r == Ok(200, QueryResponse(NO_ANSWER, [])) && backend.chats == old(backend.chats)
      ensures |question| > 0 && embedding.Returned? && search.Returned? && |search.value| > 0 ==>
                backend.chats == old(backend.chats) + [PlanQuery(question, search.value).request] &&
                (chat.Returned? ==> r == Ok(200, QueryResponse(chat.value, ContextOf(search.value)))) &&
                (chat.Raised? ==> r == HttpError(500, SERVER_ERROR))
    {
      if |question| == 0 {
        return HttpError(400, EMPTY_QUESTION);
      }
      var result := backend.PerformQuery(question, topK, embedding, search, chat);
      match result {
        case Raised(_) =>
          r := HttpError(500, SERVER_ERROR);
        case Returned(response) =>
          r := Ok(200, response);
      }
    }

    /** The worker task `process_ingestion_task` run on the k-th dispatched
        job: the job's row always exists, so the run never takes the
        swallowed-lookup path; the run has the effects `Process` gives on that
        row, and the row ends COMPLETED or FAILED. */
    method RunDispatchedJob(k: nat, scrape: Outcome<string>, embedding: Outcome<seq<Vector>>, upsert: Outcome<()>)
      requires Valid() && k < |jobs|
      modifies backend
      ensures Valid()
      ensures jobs[k].documentId in old(backend.docs) && jobs[k].documentId in backend.docs
      ensures var r := Process(jobs[k].documentId, old(backend.docs)[jobs[k].documentId], jobs[k].url,
                               scrape, embedding, upsert, old(backend.nextPointId));
              backend.docs == old(backend.docs)[jobs[k].documentId := r.doc] &&
              backend.index == old(backend.index) + r.stored &&
              backend.nextPointId == old(backend.nextPointId) + r.idsDrawn &&
              backend.trace == old(backend.trace) + r.events
      ensures backend.nextDocId == old(backend.nextDocId) &&
              backend.searches == old(backend.searches) && backend.chats == old(backend.chats)
      ensures backend.docs[jobs[k].documentId].status == Completed || backend.docs[jobs[k].documentId].status == Failed
    {
      var job := jobs[k];
      backend.ProcessUrlContent(job.documentId, job.url, scrape, embedding, upsert);
    }
  }

  /** Submitting the same URL twice: the second submission is refused with
      409, and exactly one row carries the URL. A URL new to the table is
      accepted the first time, with one job dispatched in all. */
  method SubmitTwice(app: App, url: string) returns (first: Response<IngestResponse>, second: Response<IngestResponse>)
    requires app.Valid()
    modifies app, app.backend
    ensures app.Valid()
    ensures !UrlTaken(old(app.backend.docs), url) ==>
              first.Ok? && first.code == 202 && |app.jobs| == |old(app.jobs)| + 1
    ensures second == HttpError(409, DUPLICATE_URL)
    ensures |DocsWithUrl(app.backend.docs, url)| == 1
  {
    first := app.IngestUrl(url);
    second := app.IngestUrl(url);
    OneDocPerUrl(app.backend.docs, url);
  }
}
