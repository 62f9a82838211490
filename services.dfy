/** The state the service functions act on and the two operations of the
    service layer that change it: the ingestion run (`process_url_content`)
    and the query (`perform_query`). */
module Services {
  import opened Wrappers
  import opened Database
  import opened Chunker
  import opened Ingestion
  import opened Answer

  /** One vector search: the question that was embedded and the limit. */
  datatype SearchRequest = SearchRequest(question: string, limit: int)

  /** The documents table, the vector collection, the supplies of fresh
      uuid4 values for rows and points, and the logs of external effects. */
  class Backend {
    var docs: map<DocId, Document>
    var nextDocId: nat
    var index: seq<Point>
    var nextPointId: PointId
    /** Commits, scrapes, embeddings, upserts and session closes of ingestion runs, in order. */
    var trace: seq<Event>
    /** Vector searches made by queries. */
    var searches: seq<SearchRequest>
    /** Requests sent to the chat model. */
    var chats: seq<ChatRequest>

    /** Rows sit under their own ids, which were all drawn from the supply;
        no two rows share a URL; stored points have distinct ids drawn from
        the point supply. */
    ghost predicate Valid()
      reads this
    {
      Keyed(docs) && UniqueUrls(docs) &&
      (forall id :: id in docs ==> id < nextDocId) &&
      PointIdsFresh(index, nextPointId)
    }

    constructor ()
      ensures Valid()
      ensures docs == map[] && index == [] && trace == [] && searches == [] && chats == []
    {
      docs := map[];
      nextDocId := 0;
      index := [];
      nextPointId := 0;
      trace := [];
      searches := [];
      chats := [];
    }

    /** `process_url_content`. If no row has `documentId`, the lookup raises
        before the row is bound: the handler writes nothing, the exception
        is swallowed and only the session is closed. Otherwise the run is the
        one `Process` describes: the row and the collection are updated and
        its events are appended to the trace. */
    method ProcessUrlContent(
      documentId: DocId, url: string,
      scrape: Outcome<string>, embedding: Outcome<seq<Vector>>, upsert: Outcome<()>)
      requires Valid()
      modifies this
      ensures Valid()
      ensures nextDocId == old(nextDocId) && searches == old(searches) && chats == old(chats)
      ensures documentId !in old(docs) ==>
                docs == old(docs) && index == old(index) && nextPointId == old(nextPointId) &&
                trace == old(trace) + [SessionClosed]
      ensures documentId in old(docs) ==>
                var r := Process(documentId, old(docs)[documentId], url, scrape, embedding, upsert, old(nextPointId));
                docs == old(docs)[documentId := r.doc] &&
                index == old(index) + r.stored &&
                nextPointId == old(nextPointId) + r.idsDrawn &&
                trace == old(trace) + r.events
      ensures SameRows(old(docs), docs)
    {
      if documentId !in docs {
        trace := trace + [SessionClosed];
        return;
      }
      ProcessSteps(documentId, docs[documentId], url, scrape, embedding, upsert, nextPointId);
      RunOnLoadedRow(documentId, url, scrape, embedding, upsert);
    }

    /** A run whose lookup finds the row: PROCESSING is committed, the body
        of the `try` block runs, the settled row is committed and the session
        is closed. */
    method RunOnLoadedRow(
      documentId: DocId, url: string,
      scrape: Outcome<string>, embedding: Outcome<seq<Vector>>, upsert: Outcome<()>)
      requires Valid() && documentId in docs
      modifies this
      ensures Valid()
      ensures nextDocId == old(nextDocId) && searches == old(searches) && chats == old(chats)
      ensures var processing := old(docs)[documentId].(status := Processing);
              var a := Attempted(documentId, url, scrape, embedding, upsert, old(nextPointId));
              var settled := Settle(processing, a.failure);
              docs == old(docs)[documentId := settled] &&
              index == old(index) + a.stored &&
              nextPointId == old(nextPointId) + a.idsDrawn &&
              trace == old(trace) + ([Committed(processing)] + a.events + [Committed(settled), SessionClosed])
      ensures SameRows(old(docs), docs)
    {
      var doc := docs[documentId];
      doc := doc.(status := Processing);
      CommitRow(documentId, doc);
      var failure := ScrapeEmbedUpsert(documentId, url, scrape, embedding, upsert);
      FinishRun(documentId, doc, failure);
      ghost var a := Attempted(documentId, url, scrape, embedding, upsert, old(nextPointId));
      assert docs == old(docs)[documentId := Settle(doc, failure)];
      RewriteRowKeepsConstraints(old(docs), documentId, Settle(doc, failure));
      RunTrace(old(trace), Committed(doc), a.events, Committed(Settle(doc, failure)));
    }

    /** The end of a run on a loaded row: the row is set COMPLETED, or FAILED
        with the exception's message, and committed; then the session is
        closed. */
    method FinishRun(documentId: DocId, processing: Document, failure: Option<string>)
      requires documentId in docs
      modifies this`docs, this`trace
      ensures docs == old(docs)[documentId := Settle(processing, failure)]
      ensures trace == old(trace) + [Committed(Settle(processing, failure)), SessionClosed]
    {
      var doc := processing;
      if failure.None? {
        doc := doc.(status := Completed);
      } else {
        doc := doc.(status := Failed, errorMessage := failure);
      }
      CommitRow(documentId, doc);
      trace := trace + [SessionClosed];
    }

    /** `db.commit()` of the loaded row after its status or error column was
        set: the table now holds `doc` under its id. */
    method CommitRow(documentId: DocId, doc: Document)
      requires documentId in docs
      modifies this`docs, this`trace
      ensures docs == old(docs)[documentId := doc]
      ensures trace == old(trace) + [Committed(doc)]
    {
      docs := docs[documentId := doc];
      trace := trace + [Committed(doc)];
    }

    /** Steps 2 to 5 of a run, the body of the `try` block after PROCESSING
        is committed: scrape, chunk, embed and upsert, stopping at the first
        exception, whose message is returned. Stored points keep distinct
        ids drawn from the supply. */
    method ScrapeEmbedUpsert(
      documentId: DocId, url: string,
      scrape: Outcome<string>, embedding: Outcome<seq<Vector>>, upsert: Outcome<()>)
      returns (failure: Option<string>)
      requires PointIdsFresh(index, nextPointId)
      modifies this`index, this`nextPointId, this`trace
      ensures PointIdsFresh(index, nextPointId)
      ensures var a := Attempted(documentId, url, scrape, embedding, upsert, old(nextPointId));
              failure == a.failure &&
              index == old(index) + a.stored &&
              nextPointId == old(nextPointId) + a.idsDrawn &&
              trace == old(trace) + a.events
    {
      trace := trace + [Scraped(url)];
      match scrape {
        case Raised(message) =>
          return Some(message);
        case Returned(content) =>
          if |content| == 0 {
            return Some(EXTRACTION_ERROR);
          }
          var chunks := ChunkText(content, CHUNK_SIZE, CHUNK_OVERLAP);
          ghost var scraped := trace;
          failure := EmbedAndUpsert(documentId, url, chunks, embedding, upsert);
          ghost var b := Stored(documentId, url, chunks, embedding, upsert, old(nextPointId));
          assert trace == old(trace) + ([Scraped(url)] + b.events);
      }
    }

    /** Steps 4 and 5 of a run: embed the chunks, then build one point per
        chunk under fresh ids and upsert them; the upsert stores all of them
        or none. */
    method EmbedAndUpsert(
      documentId: DocId, url: string, chunks: seq<string>,
      embedding: Outcome<seq<Vector>>, upsert: Outcome<()>)
      returns (failure: Option<string>)
      requires PointIdsFresh(index, nextPointId)
      modifies this`index, this`nextPointId, this`trace
      ensures PointIdsFresh(index, nextPointId)
      ensures var b := Stored(documentId, url, chunks, embedding, upsert, old(nextPointId));
              failure == b.failure &&
              index == old(index) + b.stored &&
              nextPointId == old(nextPointId) + b.idsDrawn &&
              trace == old(trace) + b.events
    {
      trace := trace + [Embedded(chunks)];
      match embedding {
        case Raised(message) =>
          return Some(message);
        case Returned(vectors) =>
          var points := PointsFor(chunks, vectors, documentId, url, nextPointId);
          PointsForAt(chunks, vectors, documentId, url, nextPointId);
          nextPointId := nextPointId + |points|;
          trace := trace + [UpsertCalled(points)];
          match upsert {
            case Raised(message) =>
              return Some(message);
            case Returned(_) =>
              AppendNumberedPoints(index, old(nextPointId), points);
              index := index + points;
              return None;
          }
      }
    }

    /** `perform_query`, given the outcomes of its three foreign calls: the
        embedding of the question, the vector search with limit `topK`, and
        the chat completion (an unbound client raises there too). The first
        exception raised escapes. With no hit the fixed answer is returned and
        the model is not called; otherwise the model is called once and its
        answer is returned with the context list. */
    method PerformQuery(
      question: string, topK: int,
      embedding: Outcome<Vector>, search: Outcome<seq<SearchHit>>, chat: Outcome<string>)
      returns (result: Outcome<QueryResponse>)
      modifies this`searches, this`chats
      ensures embedding.Raised? ==>
                result == Raised(embedding.message) && searches == old(searches) && chats == old(chats)
      ensures embedding.Returned? ==> searches == old(searches) + [SearchRequest(question, topK)]
      ensures embedding.Returned? && search.Raised? ==>
                result == Raised(search.message) && chats == old(chats)
      ensures embedding.Returned? && search.Returned? && |search.value| == 0 ==>
                result == Returned(QueryResponse(NO_ANSWER, [])) && chats == old(chats)
      ensures embedding.Returned? && search.Returned? && |search.value| > 0 ==>
                chats == old(chats) + [PlanQuery(question, search.value).request] &&
                (chat.Returned? ==> result == Returned(QueryResponse(chat.value, ContextOf(search.value)))) &&
                (chat.Raised? ==> result == Raised(chat.message))
    {
      if embedding.Raised? {
        return Raised(embedding.message);
      }
      searches := searches + [SearchRequest(question, topK)];
      if search.Raised? {
        return Raised(search.message);
      }
      var plan := PlanQuery(question, search.value);
      match plan {
        case Answered(r) =>
          result := Returned(r);
        case AskModel(request, context) =>
          chats := chats + [request];
          match chat {
            case Raised(message) =>
              result := Raised(message);
            case Returned(answer) =>
              result := Returned(QueryResponse(answer, context));
          }
      }
    }
  }

  /** Every stored point has an id below `next`, the first unused one, and
      no two stored points share an id. */
  ghost predicate PointIdsFresh(index: seq<Point>, next: PointId)
  {
    (forall i :: 0 <= i < |index| ==> index[i].id < next) &&
    (forall i, j :: 0 <= i < j < |index| ==> index[i].id != index[j].id)
  }

  /** Storing points numbered consecutively from the first unused id keeps
      the ids of the collection distinct and below the new first unused id. */
  lemma AppendNumberedPoints(index: seq<Point>, next: PointId, points: seq<Point>)
    requires PointIdsFresh(index, next)
    requires forall i :: 0 <= i < |points| ==> points[i].id == next + i
    ensures PointIdsFresh(index + points, next + |points|)
  {
    var all := index + points;
    forall i | 0 <= i < |all|
      ensures all[i].id < next + |points|
      ensures i < |index| ==> all[i].id < next
      ensures i >= |index| ==> all[i].id == next + (i - |index|)
    {
      if i >= |index| {
        assert all[i] == points[i - |index|];
      } else {
        assert all[i] == index[i];
      }
    }
  }

  /** Appending a run's events one group at a time gives the run's events. */
  lemma RunTrace(before: seq<Event>, opening: Event, middle: seq<Event>, closing: Event)
    ensures before + [opening] + middle + [closing, SessionClosed]
         == before + ([opening] + middle + [closing, SessionClosed])
  {
  }
}
