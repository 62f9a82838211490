/** One run of the ingestion pipeline (`process_url_content`) on a document
    that was found: the row it leaves behind, the points it stores in the
    vector collection and the order of its writes and external calls.

    Scraping, embedding and the upsert are foreign calls; each is given as
    an `Outcome`, the value the call returned or the text of the exception it
    raised. */
module Ingestion {
  import opened Wrappers
  import opened Database
  import opened Chunker

  /** The result of a call into a foreign library: the value it returned,
      or the message of the exception it raised (Python's `str(e)`). */
  datatype Outcome<+T> = Returned(value: T) | Raised(message: string)

  /** Embedding vectors are carried through unchanged; their values do not matter here. */
  type Vector = seq<real>

  /** Point identifiers, drawn from uuid4 by the service and from a supply
      of fresh numbers here. */
  type PointId = nat

  /** What a point of the vector collection carries besides its vector. */
  datatype Payload = Payload(text: string, documentId: DocId, url: string)

  datatype Point = Point(id: PointId, vector: Vector, payload: Payload)

  /** Writes and external calls of a run, in the order they happen. */
  datatype Event =
    | Committed(doc: Document)          // the row as written by a commit
    | Scraped(url: string)              // download and parse of the article
    | Embedded(texts: seq<string>)      // the embedding model encodes these texts
    | UpsertCalled(points: seq<Point>)  // one upsert request to the collection
    | SessionClosed                     // the database session is closed

  /** The message of the error raised when the article has no text. */
  const EXTRACTION_ERROR: string := "Failed to extract content from URL."

  /** The points of the upsert request: one per pair that `zip` forms from
      the chunks and the vectors, in chunk order, with consecutive fresh ids
      starting at `firstId`. */
  function PointsFor(chunks: seq<string>, vectors: seq<Vector>, documentId: DocId, url: string, firstId: PointId): seq<Point>
    decreases |chunks|
  {
    if |chunks| == 0 || |vectors| == 0 then []
    else [Point(firstId, vectors[0], Payload(chunks[0], documentId, url))]
         + PointsFor(chunks[1..], vectors[1..], documentId, url, firstId + 1)
  }

  /** There is one point per zipped pair; point i carries the i-th vector, the
      i-th chunk, the document and the URL, under id firstId + i. */
  lemma {:induction false} PointsForAt(chunks: seq<string>, vectors: seq<Vector>, documentId: DocId, url: string, firstId: PointId)
    ensures |PointsFor(chunks, vectors, documentId, url, firstId)| == Min(|chunks|, |vectors|)
    ensures forall i :: 0 <= i < Min(|chunks|, |vectors|) ==>
              PointsFor(chunks, vectors, documentId, url, firstId)[i]
              == Point(firstId + i, vectors[i], Payload(chunks[i], documentId, url))
    decreases |chunks|
  {
    if |chunks| > 0 && |vectors| > 0 {
      PointsForAt(chunks[1..], vectors[1..], documentId, url, firstId + 1);
    }
  }

  /** What the body of the `try` block does after PROCESSING is committed
      (scrape, chunk, embed, upsert): the exception message if one was
      raised, the points stored, the events, and how many point ids it drew. */
  datatype Attempt = Attempt(failure: Option<string>, stored: seq<Point>, events: seq<Event>, idsDrawn: nat)

  /** Embed the chunks and upsert their points, stopping at the first
      exception. The points are built (and their ids drawn) before the
      upsert, which stores all of them or none. */
  function Stored(
    documentId: DocId, url: string, chunks: seq<string>,
    embedding: Outcome<seq<Vector>>, upsert: Outcome<()>,
    nextPointId: PointId): (a: Attempt)
    ensures |a.events| >= 1 && a.events[0] == Embedded(chunks)
    ensures a.failure.Some? ==> a.stored == []
    ensures a.failure.None? ==> a.idsDrawn == |a.stored| && a.events[|a.events| - 1] == UpsertCalled(a.stored)
  {
    match embedding
    case Raised(message) => Attempt(Some(message), [], [Embedded(chunks)], 0)
    case Returned(vectors) =>
      var points := PointsFor(chunks, vectors, documentId, url, nextPointId);
      var events := [Embedded(chunks), UpsertCalled(points)];
      match upsert
      case Raised(message) => Attempt(Some(message), [], events, |points|)
      case Returned(_) => Attempt(None, points, events, |points|)
  }

  /** Scrape, chunk, embed and upsert, stopping at the first exception. An
      article without text raises the extraction error before anything is
      embedded. */
  function Attempted(
    documentId: DocId, url: string,
    scrape: Outcome<string>, embedding: Outcome<seq<Vector>>, upsert: Outcome<()>,
    nextPointId: PointId): (a: Attempt)
    ensures |a.events| >= 1 && a.events[0] == Scraped(url)
    ensures a.failure.Some? ==> a.stored == []
    ensures a.failure.None? ==> a.idsDrawn == |a.stored| && a.events[|a.events| - 1] == UpsertCalled(a.stored)
  {
    match scrape
    case Raised(message) => Attempt(Some(message), [], [Scraped(url)], 0)
    case Returned(content) =>
      if |content| == 0 then Attempt(Some(EXTRACTION_ERROR), [], [Scraped(url)], 0)
      else
        var b := Stored(documentId, url, Chunks(content, CHUNK_SIZE, CHUNK_SIZE - CHUNK_OVERLAP), embedding, upsert, nextPointId);
        Attempt(b.failure, b.stored, [Scraped(url)] + b.events, b.idsDrawn)
  }

  /** What a run leaves behind: the final row, the points added to the
      collection, the events in order, and how many point ids it drew. */
  datatype Effects = Effects(doc: Document, stored: seq<Point>, events: seq<Event>, idsDrawn: nat)

  /** The row after the `try` block: COMPLETED if nothing was raised,
      otherwise FAILED with the exception's message (the handler). */
  function Settle(processing: Document, failure: Option<string>): (d: Document)
    ensures d.id == processing.id && d.sourceUrl == processing.sourceUrl
    ensures failure.None? ==> d == processing.(status := Completed)
    ensures failure.Some? ==> d == processing.(status := Failed, errorMessage := failure)
  {
    if failure.Some? then processing.(status := Failed, errorMessage := failure)
    else processing.(status := Completed)
  }

  /** A run of the pipeline on the loaded row `doc`, with the given outcomes
      of the scrape, the embedding and the upsert, and `nextPointId` the
      first unused point id. */
  function Process(
    documentId: DocId, doc: Document, url: string,
    scrape: Outcome<string>, embedding: Outcome<seq<Vector>>, upsert: Outcome<()>,
    nextPointId: PointId): (r: Effects)
    // only the status and the error column of the row change
    ensures r.doc.id == doc.id && r.doc.sourceUrl == doc.sourceUrl
    // the run always ends in a terminal state
    ensures r.doc.status == Completed || r.doc.status == Failed
    // PROCESSING is committed first, before the article is fetched
    ensures |r.events| >= 4
    ensures r.events[0] == Committed(doc.(status := Processing)) && r.events[1] == Scraped(url)
    // the final row is committed last, then the session closes
    ensures r.events[|r.events| - 2] == Committed(r.doc) && r.events[|r.events| - 1] == SessionClosed
    // a failed run records a message and stores nothing
    ensures r.doc.status == Failed ==> r.doc.errorMessage.Some? && r.stored == []
    // a completed run stored exactly the points of its one upsert request, and left the error column as it was
    ensures r.doc.status == Completed ==>
              r.doc.errorMessage == doc.errorMessage &&
              r.events[|r.events| - 3] == UpsertCalled(r.stored) && r.idsDrawn == |r.stored|
  {
    var processing := doc.(status := Processing);
    var a := Attempted(documentId, url, scrape, embedding, upsert, nextPointId);
    var settled := Settle(processing, a.failure);
    Effects(settled, a.stored, [Committed(processing)] + a.events + [Committed(settled), SessionClosed], a.idsDrawn)
  }

  /** A run is the PROCESSING commit, the body of the `try` block, the
      commit of the settled row and the session close. */
  lemma ProcessSteps(
    documentId: DocId, doc: Document, url: string,
    scrape: Outcome<string>, embedding: Outcome<seq<Vector>>, upsert: Outcome<()>,
    nextPointId: PointId)
    ensures var a := Attempted(documentId, url, scrape, embedding, upsert, nextPointId);
            var r := Process(documentId, doc, url, scrape, embedding, upsert, nextPointId);
            r.doc == Settle(doc.(status := Processing), a.failure) &&
            r.stored == a.stored && r.idsDrawn == a.idsDrawn &&
            r.events == [Committed(doc.(status := Processing))] + a.events + [Committed(r.doc), SessionClosed]
  {
  }

  /** An exception raised after the row was loaded, by the scrape, the
      embedding or the upsert, ends the row FAILED with the exception's
      message, and nothing is stored. */
  lemma FailureIsRecorded(
    documentId: DocId, doc: Document, url: string,
    scrape: Outcome<string>, embedding: Outcome<seq<Vector>>, upsert: Outcome<()>,
    nextPointId: PointId, message: string)
    requires scrape == Raised(message)
          || (scrape.Returned? && |scrape.value| > 0 && embedding == Raised(message))
          || (scrape.Returned? && |scrape.value| > 0 && embedding.Returned? && upsert == Raised(message))
    ensures var r := Process(documentId, doc, url, scrape, embedding, upsert, nextPointId);
            r.doc == doc.(status := Failed, errorMessage := Some(message)) && r.stored == []
  {
  }

  /** An article without text ends the row FAILED with the extraction
      message; nothing is embedded or upserted. */
  lemma EmptyContentFails(
    documentId: DocId, doc: Document, url: string,
    embedding: Outcome<seq<Vector>>, upsert: Outcome<()>, nextPointId: PointId)
    ensures var r := Process(documentId, doc, url, Returned(""), embedding, upsert, nextPointId);
            var failed := doc.(status := Failed, errorMessage := Some(EXTRACTION_ERROR));
            r.doc == failed && r.stored == [] &&
            r.events == [Committed(doc.(status := Processing)), Scraped(url), Committed(failed), SessionClosed]
  {
  }

  /** A run whose calls all return upserts one point per zipped (chunk,
      vector) pair in chunk order, each with a fresh id and the payload
      {text: chunk, document_id, url}, stores them, and completes the row. */
  lemma SuccessStoresOnePointPerChunk(
    documentId: DocId, doc: Document, url: string,
    content: string, vectors: seq<Vector>, nextPointId: PointId)
    requires |content| > 0
    ensures var r := Process(documentId, doc, url, Returned(content), Returned(vectors), Returned(()), nextPointId);
            var chunks := Chunks(content, CHUNK_SIZE, CHUNK_SIZE - CHUNK_OVERLAP);
            r.doc == doc.(status := Completed) &&
            |r.stored| == Min(|chunks|, |vectors|) && r.idsDrawn == |r.stored| &&
            (forall i :: 0 <= i < |r.stored| ==>
               r.stored[i] == Point(nextPointId + i, vectors[i], Payload(chunks[i], documentId, url)))
  {
    PointsForAt(Chunks(content, CHUNK_SIZE, CHUNK_SIZE - CHUNK_OVERLAP), vectors, documentId, url, nextPointId);
  }

  /** The worked example: 1050 characters and two vectors give two points,
      over [0:1000] and [900:1050], and the row completes. */
  lemma Ingest1050Characters(
    documentId: DocId, doc: Document, url: string,
    content: string, vectors: seq<Vector>, nextPointId: PointId)
    requires |content| == 1050 && |vectors| == 2
    ensures var r := Process(documentId, doc, url, Returned(content), Returned(vectors), Returned(()), nextPointId);
            r.doc.status == Completed &&
            r.stored == [Point(nextPointId, vectors[0], Payload(content[0..1000], documentId, url)),
                         Point(nextPointId + 1, vectors[1], Payload(content[900..1050], documentId, url))]
  {
    DefaultChunks1050(content);
    SuccessStoresOnePointPerChunk(documentId, doc, url, content, vectors, nextPointId);
  }

  /** On a row that has never failed, a run leaves an error message exactly
      when it ends FAILED. */
  lemma FirstRunErrorIffFailed(
    documentId: DocId, doc: Document, url: string,
    scrape: Outcome<string>, embedding: Outcome<seq<Vector>>, upsert: Outcome<()>,
    nextPointId: PointId)
    requires doc.errorMessage == None
    ensures var r := Process(documentId, doc, url, scrape, embedding, upsert, nextPointId);
            r.doc.errorMessage.Some? <==> r.doc.status == Failed
  {
  }

  /** The run neither checks the current status nor clears the error column:
      a FAILED row delivered again goes back through PROCESSING and, if the
      second run succeeds, ends COMPLETED with the old message still set. */
  lemma RetryKeepsStaleError(
    documentId: DocId, doc: Document, url: string,
    content: string, vectors: seq<Vector>, nextPointId: PointId, message: string)
    requires doc.status == Failed && doc.errorMessage == Some(message) && |content| > 0
    ensures var r := Process(documentId, doc, url, Returned(content), Returned(vectors), Returned(()), nextPointId);
            r.events[0] == Committed(doc.(status := Processing)) &&
            r.doc.status == Completed && r.doc.errorMessage == Some(message)
  {
  }
}
