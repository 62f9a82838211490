# Web RAG engine — a Dafny model of the ingestion and query core

The service accepts a web page URL and records it as a document row in state
PENDING. It then hands an ingestion job to a job queue. A worker runs the
pipeline on the job:

1. mark the row PROCESSING;
2. download and parse the article;
3. cut its text into overlapping character windows;
4. embed the windows;
5. upsert one point per window into a vector collection;
6. mark the row COMPLETED, or FAILED with the exception's message.

A query embeds the question and searches the collection. It returns a fixed
answer when nothing is found. Otherwise it asks a chat model to answer from
the retrieved texts, which are joined with `"\n---\n"`.

The model is split into these modules:

- `Database` (database.dfy) covers the documents table:
  - the status enum;
  - the row with its column defaults;
  - the unique constraint on the URL.
- `Chunker` (chunker.dfy) covers `chunk_text`:
  - `ChunkText` is the imperative loop;
  - `Chunks` is a recursive reference definition;
  - lemmas give the count (ceil(len / step)), each chunk as a window of the text, the overlap between neighbours and the reassembly of the text.
- `Ingestion` (ingestion.dfy) covers one run of `process_url_content` on a loaded row:
  - it is a pure function of the outcomes of the three foreign calls, given as returned-or-raised values;
  - it gives the final row, the stored points, and the ordered trace of commits, calls and the session close.
- `Answer` (answer.dfy) covers the pure part of `perform_query`: the context list, the fallback, the joined context and the prompt.
- `Services` (services.dfy) has the `Backend` class:
  - it holds the table, the vector collection, fresh-id supplies standing in for `uuid4`, and logs of external effects;
  - its methods are the stateful `process_url_content` (including the swallowed failed lookup) and `perform_query`.
- `Api` (api.dfy) has the `App` class:
  - it holds the backend and the log of dispatched jobs;
  - its methods are the three endpoints and the worker task.

Three facts about the code are easy to get wrong, and the model states them
as the code has them:

- `chunk_text` takes a window at every start below the length, so it returns
  ceil(len / (size - overlap)) chunks, not ceil((len - overlap) / (size -
  overlap)). With the defaults, 950 characters give two chunks, [0:950] and
  [900:950], the second lying wholly inside the first.
- `process_url_content` never clears the error column, so a row that failed
  once keeps its message even if a later run completes.
- `process_url_content` does not check the current status, so a job that is
  delivered again takes a COMPLETED or FAILED row back through PROCESSING.
  `Ingestion.RetryKeepsStaleError` states this and the previous fact.

## Model

| member | source | states |
|---|---|---|
| Database.NewDocument | app/database.py:22-25 | A new row keeps its id and URL, has status PENDING and has no error message |
| Database.OneDocPerUrl | app/database.py:23 | Under the unique constraint, a URL that is taken is carried by exactly one row |
| Database.InsertKeepsUniqueUrls | app/main.py:19-25 | Inserting a row for a URL no row carries keeps URLs unique and makes the URL taken |
| Database.RewriteRowKeepsConstraints | app/services.py:69-71 | Rewriting a loaded row's status or error keeps the key set, ids, URLs and uniqueness |
| Chunker.CeilDiv | app/services.py:57-60 | The number of window starts below n is the least q with n <= q*step; it is zero exactly for empty text |
| Chunker.Window | app/services.py:58-59 | A slice `text[start:start+size]` is non-empty, at most size long, cut at the text's end, and agrees with the text character by character |
| Chunker.ChunkText | app/services.py:52-61 | The loop returns exactly the reference chunk list `Chunks`: nothing for empty text, and ceil(len/step) chunks |
| Chunker.ChunksCount | app/services.py:57-60 | The chunk list has ceil(len/step) entries |
| Chunker.ChunkAt | app/services.py:57-60 | Chunk i starts inside the text at i*step and is the window there |
| Chunker.ChunkLengths | app/services.py:58-59 | Every chunk is non-empty and at most chunk_size characters |
| Chunker.LastChunkEndsAtEnd | app/services.py:57-60 | With overlap >= 0, the last chunk ends exactly at the end of the text |
| Chunker.ConsecutiveChunksOverlap | app/services.py:58-60 | With overlap >= 0, the tail of a chunk after one step is a prefix of the next chunk |
| Chunker.ReassembleChunks | app/services.py:52-61 | With overlap >= 0, the text is recovered from its chunks, so every offset is covered |
| Chunker.DefaultChunks1050 | app/services.py:52-61 | With the defaults, 1050 characters give exactly [0:1000] and [900:1050] |
| Chunker.DefaultChunks950 | app/services.py:52-61 | With the defaults, 950 characters give [0:950] and [900:950], the second lying inside the first |
| Ingestion.PointsForAt | app/services.py:90-100 | The upsert has one point per zipped (chunk, vector) pair, in order, with consecutive fresh ids and payload {text, document id, url} |
| Ingestion.Stored | app/services.py:85-100 | Embedding comes first; on failure nothing is stored; on success one id is drawn per stored point and the last call is the upsert of exactly those points |
| Ingestion.Attempted | app/services.py:73-100 | The try body scrapes first; on failure it stores nothing; on success it drew one id per stored point and its last call was the upsert of exactly those points |
| Ingestion.Settle | app/services.py:103-113 | No exception gives COMPLETED; an exception gives FAILED with its message; id and URL are kept |
| Ingestion.Process | app/services.py:64-115 | PROCESSING is committed before the scrape; the run ends COMPLETED or FAILED with the final commit then the session close; FAILED carries a message and stores nothing; COMPLETED stored exactly the upserted points |
| Ingestion.FailureIsRecorded | app/services.py:108-113 | A scrape, embedding or upsert exception ends the row FAILED with that exception's message, and nothing is stored |
| Ingestion.EmptyContentFails | app/services.py:78-79 | An article without text ends FAILED with "Failed to extract content from URL.", with no embedding or upsert call |
| Ingestion.SuccessStoresOnePointPerChunk | app/services.py:82-105 | When every call returns, the row completes and point i holds vector i and chunk i under id first+i |
| Ingestion.Ingest1050Characters | app/services.py:82-105 | 1050 characters and two vectors store two points over [0:1000] and [900:1050], and the row completes |
| Ingestion.FirstRunErrorIffFailed | app/services.py:104-113 | On a row never failed before, the error message is set exactly when the run ends FAILED |
| Ingestion.RetryKeepsStaleError | app/services.py:68-113 | A FAILED row that is run again re-enters PROCESSING and can end COMPLETED with the old message still set |
| Answer.JoinPlacesPart | app/services.py:139 | The joined string holds each part at its offset, and ends exactly with the last part |
| Answer.OffsetNext | app/services.py:139 | Each part starts one part and one separator after the previous one |
| Answer.JoinSeparates | app/services.py:139 | Between neighbouring parts, the joined string holds exactly one separator |
| Answer.UserMessageHolds | app/services.py:149 | The user message holds the context text right after "CONTEXT:\n", and ends with the question |
| Answer.PlanQuery | app/services.py:130-153 | No hits gives the fixed answer with empty context and no model call; otherwise the model is asked with the fixed system prompt, and the context mirrors the hits |
| Answer.ContextMirrorsHits | app/services.py:130-133 | The context has one {text, url, score} entry per hit, in order, so the search ranking is kept |
| Answer.PromptQuotesEveryHit | app/services.py:139-151 | The user message quotes every hit's text after the CONTEXT header, at its joined offset, and ends with the question |
| Services.Backend.ProcessUrlContent | app/services.py:64-115 | A missing row writes nothing and only closes the session. Otherwise the table, the collection, the id supply and the trace change exactly as `Process` says; rows keep their ids and URLs; the table and collection invariants are kept |
| Services.Backend.RunOnLoadedRow | app/services.py:69-115 | With the row found, the table holds the settled row, the collection grows by the attempt's points, and the trace is PROCESSING commit, the attempt's calls, the final commit and the session close |
| Services.Backend.FinishRun | app/services.py:103-115 | The settled row (COMPLETED, or FAILED with the message) is committed, then the session closes |
| Services.Backend.CommitRow | app/services.py:70-71 | A commit stores the rewritten row under its id and is logged |
| Services.Backend.ScrapeEmbedUpsert | app/services.py:73-101 | The stateful try body, which calls `ChunkText`, has exactly the effects of `Attempted` on the collection, the point-id supply and the trace; stored point ids stay distinct and drawn |
| Services.Backend.EmbedAndUpsert | app/services.py:85-101 | Embedding and upsert have exactly the effects of `Stored`; stored point ids stay distinct and drawn |
| Services.AppendNumberedPoints | app/services.py:92-98 | Storing points numbered from the first unused id keeps all point ids distinct and below the next unused id |
| Services.Backend.PerformQuery | app/services.py:117-157 | A failing question embedding raises before any search; otherwise one search is made, and its exception escapes with no model call. No hits gives the fixed answer with no model call. Otherwise one model call with the planned request is made, whose answer is returned with the context or whose exception escapes |
| Api.App.IngestUrl | app/main.py:15-37 | A taken URL gives 409 with nothing written or dispatched. A new URL adds one PENDING row under a fresh id, dispatches one job with that id and URL, and returns 202 with the id |
| Api.App.GetIngestionStatus | app/main.py:39-45 | A known id returns its stored row with 200; an unknown id gives 404 "Document not found." |
| Api.App.QueryKnowledgeBase | app/main.py:47-54 | An empty question gives 400 with no search and no model call. Otherwise the result of `perform_query` is returned with 200, or 500 when the embedding, the search or the model call raised |
| Api.App.RunDispatchedJob | app/celery_worker.py:21-25 | A dispatched job always finds its row. The table, the collection, the point-id supply and the trace change exactly as `Process` says for that row, nothing else changes, the row ends COMPLETED or FAILED, and the application stays consistent |
| Api.SubmitTwice | app/main.py:18-25 | Submitting a URL twice refuses the second with 409 and leaves exactly one row for it |

## Left out

- The foreign calls are not modelled. These are the article download and parse, the embedding model, the vector store client and the chat model. Each call's result is a parameter, an `Outcome`: the value it returned, or the message of the exception it raised. A chat client that failed to set up at import is covered by a raising chat call.
- Timestamps (`created_at`, `updated_at`) are not modelled. The same goes for session mechanics, `get_db`, `create_tables`, collection setup, configuration, logging and the Celery broker.
- Failures of the database itself are not modelled: a commit that raises, or a lost connection.
- Concurrent requests are not modelled. Neither are two submissions racing past the duplicate check, or a job that is delivered twice at once. Runs are sequential.
- A dispatch that fails after the row was committed is not modelled.
- Chunker.ChunkText: requires `chunk_size > 0`. A size of zero or below makes Python's slices empty or measured from the end of the text. An overlap at or above the size never terminates, so the requirement there is the loop's own.
- Services.Backend.PerformQuery: the search result is a parameter. They are not derived from the stored points, so the limit and the cosine ranking are not modelled. `topK` is only logged as part of the search request.
- Api.App.QueryKnowledgeBase: the 500 reply is the framework's default for an uncaught exception, with the body "Internal Server Error". Logging of the exception is not modelled.
- Api.App.IngestUrl: the `status_endpoint` URL that the framework builds is not returned.
- Api.App.IngestUrl: URL normalisation by the request schema is not modelled. The URL is compared as the string it is given.
- Api.App.GetIngestionStatus: returns the stored row. Its validation against the `DocumentStatus` response schema (app/schemas.py:14-18) is not modelled. Reading the code (nothing here was executed), that validation looks likely to fail on the 200 path:
  - the schema requires a `document_id` field, but the row has `id`;
  - the schema's `status` is a `str`, but the row holds an `IngestionStatus` enum that is not a `str` subclass.

  So the 200 reply is what the handler returns, not necessarily what a client receives.
- Answer.PlanQuery: a chat completion whose content is missing is not modelled. The model's answer is always a string.
