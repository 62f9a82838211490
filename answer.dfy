/** The result-shaping part of `perform_query`: the context list built from
    the search hits, the fallback answer when there is none, and the chat
    request that quotes the retrieved texts.

    Embedding the question, the vector search and the chat completion are
    foreign calls: the hits and the model's answer are given. */
module Answer {
  import opened Ingestion

  /** A search result: the stored payload and its similarity score. */
  datatype SearchHit = SearchHit(payload: Payload, score: real)

  /** One entry of the context returned to the caller. */
  datatype ContextChunk = ContextChunk(text: string, url: string, score: real)

  datatype QueryResponse = QueryResponse(answer: string, context: seq<ContextChunk>)

  /** The two messages sent to the chat model. */
  datatype ChatRequest = ChatRequest(system: string, user: string)

  /** What a query does after the search: answer at once, or ask the model
      with this request and return this context. */
  datatype Plan =
    | Answered(response: QueryResponse)
    | AskModel(request: ChatRequest, context: seq<ContextChunk>)

  const NO_ANSWER: string := "I could not find any relevant information in the knowledge base."

  const SEPARATOR: string := "\n---\n"

  const SYSTEM_PROMPT: string :=
    "You are a helpful AI assistant. Answer the user's question based ONLY on the context provided. "
    + "If the context does not contain the answer, state that you cannot answer the question with the given information."

  const CONTEXT_HEADER: string := "CONTEXT:\n"

  const QUESTION_HEADER: string := "\n\nQUESTION:\n"

  /** The hits ordered by non-increasing score, as the search returns them. */
  ghost predicate HitsRanked(hits: seq<SearchHit>)
  {
    forall i, j :: 0 <= i < j < |hits| ==> hits[i].score >= hits[j].score
  }

  ghost predicate ContextRanked(context: seq<ContextChunk>)
  {
    forall i, j :: 0 <= i < j < |context| ==> context[i].score >= context[j].score
  }

  /** The context list: {text, url, score} of each hit, in order. */
  function ContextOf(hits: seq<SearchHit>): seq<ContextChunk>
  {
    seq(|hits|, i requires 0 <= i < |hits| => ContextChunk(hits[i].payload.text, hits[i].payload.url, hits[i].score))
  }

  function Texts(context: seq<ContextChunk>): seq<string>
  {
    seq(|context|, i requires 0 <= i < |context| => context[i].text)
  }

  /** Python's `sep.join(parts)`. */
  function Join(parts: seq<string>, sep: string): string
  {
    if |parts| == 0 then ""
    else if |parts| == 1 then parts[0]
    else parts[0] + sep + Join(parts[1..], sep)
  }

  /** Where part i starts in the joined string: the lengths of the parts
      before it, each followed by a separator. */
  function Offset(parts: seq<string>, sep: string, i: nat): nat
    requires i <= |parts|
  {
    if i == 0 then 0 else |parts[0]| + |sep| + Offset(parts[1..], sep, i - 1)
  }

  /** A slice of the second half of a concatenation. */
  lemma SliceOfConcat(prefix: string, s: string, x: nat, y: nat)
    requires x <= y <= |s|
    ensures (prefix + s)[|prefix| + x .. |prefix| + y] == s[x..y]
  {
  }

  /** Part i + 1 starts one part and one separator after part i. */
  lemma {:induction false} OffsetNext(parts: seq<string>, sep: string, i: nat)
    requires i + 1 < |parts|
    ensures Offset(parts, sep, i + 1) == Offset(parts, sep, i) + |parts[i]| + |sep|
    decreases i
  {
    if i > 0 {
      OffsetNext(parts[1..], sep, i - 1);
      assert parts[1..][i - 1] == parts[i];
    }
  }

  /** The joined string holds every part at its offset, and ends with the
      last part. */
  lemma {:induction false} JoinPlacesPart(parts: seq<string>, sep: string, i: nat)
    requires i < |parts|
    ensures Offset(parts, sep, i) + |parts[i]| <= |Join(parts, sep)|
    ensures Join(parts, sep)[Offset(parts, sep, i) .. Offset(parts, sep, i) + |parts[i]|] == parts[i]
    ensures i + 1 == |parts| ==> Offset(parts, sep, i) + |parts[i]| == |Join(parts, sep)|
    decreases i
  {
    if |parts| > 1 {
      var rest := parts[1..];
      var head := parts[0] + sep;
      assert Join(parts, sep) == head + Join(rest, sep);
      if i == 0 {
        assert Join(parts, sep)[..|parts[0]|] == parts[0];
      } else {
        JoinPlacesPart(rest, sep, i - 1);
        var o := Offset(rest, sep, i - 1);
        assert parts[i] == rest[i - 1];
        SliceOfConcat(head, Join(rest, sep), o, o + |parts[i]|);
      }
    }
  }

  /** Between neighbouring parts the joined string holds exactly one
      separator. */
  lemma {:induction false} JoinSeparates(parts: seq<string>, sep: string, i: nat)
    requires i + 1 < |parts|
    ensures Offset(parts, sep, i) + |parts[i]| + |sep| <= |Join(parts, sep)|
    ensures Join(parts, sep)[Offset(parts, sep, i) + |parts[i]| .. Offset(parts, sep, i) + |parts[i]| + |sep|] == sep
    decreases i
  {
    OffsetNext(parts, sep, i);
    JoinPlacesPart(parts, sep, i + 1);
    var rest := parts[1..];
    var head := parts[0] + sep;
    assert Join(parts, sep) == head + Join(rest, sep);
    if i == 0 {
      assert Join(parts, sep)[|parts[0]| .. |head|] == sep;
    } else {
      JoinSeparates(rest, sep, i - 1);
      assert parts[i] == rest[i - 1];
      SliceOfConcat(head, Join(rest, sep), Offset(rest, sep, i - 1) + |parts[i]|, Offset(rest, sep, i));
    }
  }

  /** The user message: the joined context, then the question. */
  function UserMessage(contextText: string, question: string): string
  {
    CONTEXT_HEADER + contextText + QUESTION_HEADER + question
  }

  /** After the search: with no hit, the fixed answer and an empty context,
      and no call to the model; otherwise a request to the model that
      carries the joined hit texts and the question. */
  function PlanQuery(question: string, hits: seq<SearchHit>): (p: Plan)
    ensures p.Answered? <==> |hits| == 0
    ensures p.Answered? ==> p.response == QueryResponse(NO_ANSWER, [])
    ensures p.AskModel? ==> p.context == ContextOf(hits) && p.request.system == SYSTEM_PROMPT
  {
    var context := ContextOf(hits);
    if |context| == 0 then Answered(QueryResponse(NO_ANSWER, []))
    else AskModel(ChatRequest(SYSTEM_PROMPT, UserMessage(Join(Texts(context), SEPARATOR), question)), context)
  }

  /** The context list mirrors the hits in order, and so keeps their ranking. */
  lemma ContextMirrorsHits(hits: seq<SearchHit>)
    ensures |ContextOf(hits)| == |hits|
    ensures forall i :: 0 <= i < |hits| ==>
              ContextOf(hits)[i] == ContextChunk(hits[i].payload.text, hits[i].payload.url, hits[i].score)
    ensures HitsRanked(hits) ==> ContextRanked(ContextOf(hits))
  {
  }

  /** The user message holds the context text right after the context
      header, and ends with the question. */
  lemma UserMessageHolds(contextText: string, question: string, x: nat, y: nat)
    requires x <= y <= |contextText|
    ensures |CONTEXT_HEADER| + y <= |UserMessage(contextText, question)|
    ensures UserMessage(contextText, question)[|CONTEXT_HEADER| + x .. |CONTEXT_HEADER| + y] == contextText[x..y]
    ensures var user := UserMessage(contextText, question);
            user[|user| - |question| ..] == question
  {
    var tail := QUESTION_HEADER + question;
    assert UserMessage(contextText, question) == CONTEXT_HEADER + (contextText + tail);
    SliceOfConcat(CONTEXT_HEADER, contextText + tail, x, y);
    assert (contextText + tail)[x..y] == contextText[x..y];
  }

  /** The request sent to the model quotes the text of every hit, in order
      and separated by the separator, after the context header, and ends with
      the question. */
  lemma PromptQuotesEveryHit(question: string, hits: seq<SearchHit>, i: nat)
    requires i < |hits|
    ensures var p := PlanQuery(question, hits);
            var start := |CONTEXT_HEADER| + Offset(Texts(ContextOf(hits)), SEPARATOR, i);
            var text := hits[i].payload.text;
            p.AskModel? &&
            start + |text| <= |p.request.user| &&
            p.request.user[start .. start + |text|] == text &&
            p.request.user[|p.request.user| - |question| ..] == question
  {
    var texts := Texts(ContextOf(hits));
    JoinPlacesPart(texts, SEPARATOR, i);
    var o := Offset(texts, SEPARATOR, i);
    UserMessageHolds(Join(texts, SEPARATOR), question, o, o + |texts[i]|);
  }
}
