/** The endpoints of `backend/main.py` over the two module-level globals (`vector_store`,
    `memory`) and a database session, each request as one sequential step. The request and
    response records are those of `backend/schemas.py`. Every library call the endpoints reach
    is a field of `Library`; an endpoint's `HTTPException` is `Reply.HttpError`. */
module Api {
  import opened Documents
  import opened PyStr
  import opened Chains
  import opened DocumentProcessor
  import opened Retrievers
  import opened Crud

  /** The calls into code outside the repository: saving the upload to disk, PDFPlumber,
      WebBaseLoader, the text splitter, the embedding service, FAISS similarity search, the
      ensemble retriever, the chat model, and the memory's history rendering. */
  datatype Library = Library(
    savePdf: (string, seq<bv8>) -> Result<string>,
    loadPdf: string -> Result<seq<Doc>>,
    loadUrl: string -> Result<seq<Doc>>,
    split: (seq<Doc>, SplitterSettings) -> seq<Doc>,
    embed: seq<Doc> -> Outcome,
    similaritySearch: SimilaritySearch,
    ensemble: EnsembleSearch,
    chat: string -> Result<string>,
    render: (seq<Exchange>, nat) -> string)

  /** The uploaded file: its name and its bytes. */
  datatype UploadFile = UploadFile(filename: string, data: seq<bv8>)

  datatype QueryRequest = QueryRequest(question: string, userId: string, searchMode: string := "Semantic")

  /** `schemas.Document`: a source preview attached to a message. */
  datatype SourceDocument = SourceDocument(content: string, metadata: Metadata)

  datatype Message = Message(role: string, content: string, sourceDocuments: seq<SourceDocument>)

  datatype ConversationResponse = ConversationResponse(messages: seq<Message>)

  /** What an endpoint sends back: a body, or an `HTTPException` with its status and detail. */
  datatype Reply<+T> = Sent(body: T) | HttpError(status: nat, detail: string)

  const NoDocsToSummarize: string := "No documents available to summarize."
  const NoDocsToTranslate: string := "No documents available to translate."
  /** The fallback for an empty retrieval, as the endpoint spells it. */
  const NoRelevantInfo: string :=
    "I couldn't find relevant information in the provided"
    + " sources."
  const DefaultLanguage: string := "French"
  const PreviewLength: nat := 300
  const MemoryWindow: nat := 3
  const DefaultUser: string := "default_user"

  /** `question.lower() == "summarize"`. */
  predicate IsSummarize(question: string) {
    Lower(question) == "summarize"
  }

  /** `question.lower().startswith("translate:")`. */
  predicate IsTranslate(question: string) {
    StartsWith(Lower(question), "translate:")
  }

  /** `question.split(":", 1)[1].strip() if ":" in question else "French"`. */
  function TargetLanguage(question: string): string {
    if ':' in question then Strip(AfterFirst(question, ':')) else DefaultLanguage
  }

  /** A question that passes the translate test has its colon at index 9, the prefix's own:
      the language is the rest of the question, stripped, and the default "French" is never
      chosen. */
  lemma TranslateLanguageParsed(question: string)
    requires IsTranslate(question)
    ensures ':' in question
    ensures TargetLanguage(question) == Strip(question[10..])
  {
    var l := Lower(question);
    assert l[..10] == "translate:";
    assert l[9] == l[..10][9] == ':';
    assert question[9] == ':';
    assert ':' !in "translate";
    forall i | 0 <= i < 9 ensures question[i] != ':' {
      assert l[i] == l[..10][i] == "translate"[i];
      assert l[i] in "translate";
    }
    assert ':' !in question[..9] by {
      forall x | x in question[..9] ensures x != ':' {
        var i :| 0 <= i < 9 && question[..9][i] == x;
      }
    }
    IndexOfUnique(question, ':', 9);
  }

  /** `"translate:"` with nothing (or only whitespace) after it asks for the empty language. */
  lemma TranslateWithoutLanguage(question: string)
    requires IsTranslate(question) && AllSpace(question[10..])
    ensures TargetLanguage(question) == ""
  {
    TranslateLanguageParsed(question);
    StripEmptyIff(question[10..]);
  }

  /** The branch `query_endpoint` takes, decided by the question and the search mode alone. */
  datatype Route = Summarize | Translate(targetLanguage: string) | Search(hybrid: bool)

  /** Summarize is tested first, then translate; only the exact mode "Hybrid" selects hybrid
      retrieval, every other mode (the default "Semantic" among them) semantic retrieval. */
  function RouteOf(question: string, searchMode: string): (r: Route)
    ensures r.Summarize? <==> IsSummarize(question)
    ensures r.Translate? <==> !IsSummarize(question) && IsTranslate(question)
    ensures r.Translate? ==> r.targetLanguage == Strip(question[10..])
    ensures r.Search? ==> (r.hybrid <==> searchMode == "Hybrid")
  {
    if IsSummarize(question) then Summarize
    else if IsTranslate(question) then
      TranslateLanguageParsed(question);
      Translate(TargetLanguage(question))
    else Search(searchMode == "Hybrid")
  }

  /** The retrieval of the search branch. */
  function Retrieved(question: string, hybrid: bool, store: Option<seq<Doc>>, lib: Library): Result<seq<Doc>> {
    if hybrid then HybridRetrieval(question, store, lib.ensemble)
    else RetrieveDocs(question, store, lib.similaritySearch)
  }

  /** `{"content": doc.page_content[:300], "metadata": doc.metadata}` for each retrieved chunk. */
  function Previews(docs: seq<Doc>): (r: seq<SourceDocument>)
    ensures |r| == |docs|
    ensures forall i :: 0 <= i < |docs| ==>
      r[i].metadata == docs[i].metadata
      && r[i].content <= docs[i].content
      && |r[i].content| == (if |docs[i].content| < PreviewLength then |docs[i].content| else PreviewLength)
  {
    seq(|docs|, i requires 0 <= i < |docs| => SourceDocument(Truncate(docs[i].content, PreviewLength), docs[i].metadata))
  }

  /** The response of a successful query: its text, the previews to attach, and whether it is a
      grounded answer from `answer_question`. */
  datatype Answer = Answer(text: string, sources: seq<SourceDocument>, grounded: bool)

  /** A model response without sources. */
  function Plain(call: Result<string>): (r: Result<Answer>)
    ensures r.Ok? <==> call.Ok?
    ensures r.Ok? ==> r.value == Answer(call.value, [], false)
    ensures r.Err? ==> r.reason == call.reason
  {
    if call.Err? then Err(call.reason) else Ok(Answer(call.value, [], false))
  }

  /** What the `try` block of `query_endpoint` computes, given the store's contents and the
      history `answer_question` would read; an `Err` is an exception raised in it. */
  function Respond(question: string, searchMode: string, store: Option<seq<Doc>>, history: string, lib: Library)
    : (r: Result<Answer>)
    ensures IsSummarize(question) && store.None? ==> r == Ok(Answer(NoDocsToSummarize, [], false))
    ensures IsSummarize(question) && store.Some? ==>
      r == Plain(lib.chat("\nSummarize this in 3-5 bullet points:\n\n" + Context(store.value) + "\n"))
    ensures !IsSummarize(question) && IsTranslate(question) && store.None? ==>
      r == Ok(Answer(NoDocsToTranslate, [], false))
    ensures !IsSummarize(question) && IsTranslate(question) && store.Some? ==>
      r == Plain(lib.chat("\nTranslate this to " + Strip(question[10..]) + ":\n\n" + Context(store.value) + "\n"))
    ensures !IsSummarize(question) && !IsTranslate(question) && store.None? ==>
      r == Ok(Answer(NoRelevantInfo, [], false))
    ensures r.Ok? && r.value.grounded ==>
      !IsSummarize(question) && !IsTranslate(question) && store.Some? && r.value.sources != []
    ensures r.Ok? && !r.value.grounded ==> r.value.sources == []
  {
    match RouteOf(question, searchMode)
    case Summarize =>
      if store.None? then Ok(Answer(NoDocsToSummarize, [], false))
      else Plain(SummarizeText(Context(store.value), lib.chat))
    case Translate(language) =>
      if store.None? then Ok(Answer(NoDocsToTranslate, [], false))
      else Plain(TranslateText(Context(store.value), lib.chat, language))
    case Search(hybrid) =>
      var related := Retrieved(question, hybrid, store, lib);
      if related.Err? then Err(related.reason)
      else
        var sources := Previews(related.value);
        if related.value == [] then Ok(Answer(NoRelevantInfo, [], false))
        else
          var answer := Invoke(QaPrompt(history, Context(related.value), question), lib.chat);
          if answer.Err? then Err(answer.reason) else Ok(Answer(answer.value, sources, true))
  }

  /** An ordinary question: a retrieval error raises, an empty retrieval gives the fixed
      message, and otherwise the answer is the model's response to the QA prompt over the
      retrieved chunks, with one preview per chunk. */
  lemma SearchOutcome(question: string, searchMode: string, store: Option<seq<Doc>>, history: string, lib: Library)
    requires !IsSummarize(question) && !IsTranslate(question)
    ensures var related := if searchMode == "Hybrid" then HybridRetrieval(question, store, lib.ensemble)
                           else RetrieveDocs(question, store, lib.similaritySearch);
      var r := Respond(question, searchMode, store, history, lib);
      (related.Err? ==> r == Err(related.reason))
      && (related == Ok([]) ==> r == Ok(Answer(NoRelevantInfo, [], false)))
      && (related.Ok? && related.value != [] ==>
            var answer := lib.chat("\nConversation History:\n" + (history + ("\n\nContext:\n"
                                   + (Context(related.value) + ("\n\nQuestion: " + (question + "\nAnswer:"))))));
            (r.Ok? <==> answer.Ok?)
            && (r.Ok? ==> r.value == Answer(answer.value, Previews(related.value), true))
            && (r.Err? ==> r.reason == answer.reason))
  {
    var route := RouteOf(question, searchMode);
    assert route == Search(searchMode == "Hybrid");
  }

  /** Without an index no library function is consulted at all: the response is one of the
      three fixed messages, whatever the library does. */
  lemma NoIndexNoCalls(question: string, searchMode: string, history: string, lib: Library, other: Library)
    ensures Respond(question, searchMode, None, history, lib) == Respond(question, searchMode, None, history, other)
    ensures var r := Respond(question, searchMode, None, history, lib);
      r.Ok? && r.value.sources == [] && !r.value.grounded
      && r.value.text in {NoDocsToSummarize, NoDocsToTranslate, NoRelevantInfo}
  {
  }

  /** An empty retrieval never reaches the model: changing the chat model changes nothing. */
  lemma EmptyRetrievalSkipsModel(question: string, searchMode: string, store: Option<seq<Doc>>,
                                 history: string, lib: Library, chat: string -> Result<string>)
    requires !IsSummarize(question) && !IsTranslate(question)
    requires (if searchMode == "Hybrid" then HybridRetrieval(question, store, lib.ensemble)
              else RetrieveDocs(question, store, lib.similaritySearch)) == Ok([])
    ensures Respond(question, searchMode, store, history, lib)
         == Respond(question, searchMode, store, history, lib.(chat := chat))
         == Ok(Answer(NoRelevantInfo, [], false))
  {
    SearchOutcome(question, searchMode, store, history, lib);
    SearchOutcome(question, searchMode, store, history, lib.(chat := chat));
  }

  /** "summarize" wins over every other branch: the search mode, the history and the search
      functions play no part. */
  lemma SummarizeTakesPriority(question: string, mode1: string, mode2: string, store: Option<seq<Doc>>,
                               history1: string, history2: string, lib: Library,
                               search: SimilaritySearch, ensemble: EnsembleSearch)
    requires IsSummarize(question)
    ensures Respond(question, mode1, store, history1, lib)
         == Respond(question, mode2, store, history2, lib.(similaritySearch := search, ensemble := ensemble))
  {
  }

  /** The messages of a query response: every row as a message, and the previews on each
      assistant row, only when there are any. */
  function Messages(rows: seq<Row>, sources: seq<SourceDocument>): (r: seq<Message>)
    ensures |r| == |rows|
    ensures forall i :: 0 <= i < |rows| ==> r[i].role == rows[i].role && r[i].content == rows[i].content
    ensures forall i :: 0 <= i < |rows| && rows[i].role != "assistant" ==> r[i].sourceDocuments == []
    ensures forall i :: 0 <= i < |rows| && rows[i].role == "assistant" ==> r[i].sourceDocuments == sources
  {
    seq(|rows|, i requires 0 <= i < |rows| =>
      Message(rows[i].role, rows[i].content,
              if rows[i].role == "assistant" && sources != [] then sources else []))
  }

  /** `history_endpoint`: the user's oldest ten rows, oldest first, without previews. */
  function History(rows: seq<Row>, userId: string): (r: ConversationResponse)
    requires IdsAscending(rows)
    ensures |r.messages| <= DefaultLimit
    ensures forall i :: 0 <= i < |r.messages| ==> r.messages[i].sourceDocuments == []
    ensures var oldest := OldestConversations(rows, userId, DefaultLimit);
      |r.messages| == |oldest|
      && (forall i :: 0 <= i < |oldest| ==>
            r.messages[i].role == oldest[i].role && r.messages[i].content == oldest[i].content)
      && OldestFirst(rows, userId, DefaultLimit, oldest)
  {
    OldestConversationsOldestFirst(rows, userId, DefaultLimit);
    ConversationResponse(Messages(OldestConversations(rows, userId, DefaultLimit), []))
  }

  /** What uploading a PDF does to the store's contents: the file is saved (which may raise),
      parsed (failures give no pages), split, and indexed. */
  function PdfIngest(view: Option<seq<Doc>>, file: UploadFile, lib: Library): (r: Result<Option<seq<Doc>>>)
    ensures var saved := lib.savePdf(file.filename, file.data);
      saved.Err? ==> r == Err(saved.reason)
    ensures var saved := lib.savePdf(file.filename, file.data);
      saved.Ok? ==>
        var chunks := lib.split(LoadPdf(saved.value, lib.loadPdf), Splitter);
        (chunks == [] ==> r == Ok(view))
        && (chunks != [] ==> (r.Ok? <==> lib.embed(chunks).Pass?)
                             && (r.Ok? ==> Entries(r.value) == Entries(view) + chunks)
                             && (r.Err? ==> r.reason == lib.embed(chunks).reason))
    ensures r.Ok? ==> Entries(view) <= Entries(r.value)
  {
    var saved := lib.savePdf(file.filename, file.data);
    if saved.Err? then Err(saved.reason)
    else
      var spec := Indexed(view, SplitText(LoadPdf(saved.value, lib.loadPdf), lib.split), lib.embed);
      spec
  }

  /** A PDF nothing could be read from leaves the index as it was, and the upload still
      succeeds (the splitter gives no chunks for no pages). */
  lemma UnreadablePdfStillSucceeds(view: Option<seq<Doc>>, file: UploadFile, lib: Library)
    requires lib.savePdf(file.filename, file.data).Ok?
    requires var parsed := lib.loadPdf(lib.savePdf(file.filename, file.data).value);
      parsed.Err? || parsed == Ok([])
    requires lib.split([], Splitter) == []
    ensures PdfIngest(view, file, lib) == Ok(view)
  {
  }

  /** The detail `str(e)` gives for the scrape endpoint's own `HTTPException(400)`. */
  const ScrapeEmptyReason: string := "400: Failed to scrape URL"

  /** What scraping a URL does to the store's contents: no pages raise the endpoint's 400, which
      its own handler catches; otherwise the single cleaned page is split and indexed. */
  function UrlIngest(view: Option<seq<Doc>>, url: string, lib: Library): (r: Result<Option<seq<Doc>>>)
    ensures ScrapeUrl(url, lib.loadUrl) == [] ==> r == Err(ScrapeEmptyReason)
    ensures ScrapeUrl(url, lib.loadUrl) != [] ==>
      var chunks := lib.split(ScrapeUrl(url, lib.loadUrl), Splitter);
      (chunks == [] ==> r == Ok(view))
      && (chunks != [] ==> (r.Ok? <==> lib.embed(chunks).Pass?)
                           && (r.Ok? ==> Entries(r.value) == Entries(view) + chunks)
                           && (r.Err? ==> r.reason == lib.embed(chunks).reason))
    ensures r.Ok? ==> Entries(view) <= Entries(r.value)
  {
    var documents := ScrapeUrl(url, lib.loadUrl);
    if documents == [] then Err(ScrapeEmptyReason)
    else
      var spec := Indexed(view, SplitText(documents, lib.split), lib.embed);
      spec
  }

  /** The module-level state of `main.py`: the vector store, absent at start, and the window
      memory with k = 3. */
  class Server {
    var vectorStore: VectorStore?
    const memory: Memory

    ghost predicate Valid()
      reads this, vectorStore
    {
      (vectorStore != null ==> vectorStore.Valid()) && memory.k == MemoryWindow
    }

    constructor ()
      ensures Valid() && vectorStore == null && fresh(memory) && memory.exchanges == []
    {
      vectorStore := null;
      memory := new Memory(MemoryWindow);
    }

    /** Replaces the store by the outcome of indexing, keeping it absent or non-empty. */
    method Ingest(documents: seq<Doc>, lib: Library) returns (r: Outcome)
      requires Valid()
      modifies this, vectorStore
      ensures Valid()
      ensures var spec := Indexed(old(View(vectorStore)), documents, lib.embed);
        (r.Pass? <==> spec.Ok?) && (r.Fail? ==> r.reason == spec.reason)
        && View(vectorStore) == (if spec.Ok? then spec.value else old(View(vectorStore)))
    {
      var indexed := IndexDocs(documents, vectorStore, lib.embed);
      if indexed.Err? {
        return Fail(indexed.reason);
      }
      vectorStore := indexed.value;
      r := Pass;
    }

    /** `upload_pdf_endpoint`: any exception gives a 500 with a fixed detail and leaves the store
        as it was; otherwise the store is the indexed one. */
    method UploadPdf(file: UploadFile, lib: Library) returns (reply: Reply<string>)
      requires Valid()
      modifies this, vectorStore
      ensures Valid()
      ensures var spec := PdfIngest(old(View(vectorStore)), file, lib);
        (spec.Err? ==> reply == HttpError(500, "Failed to process PDF") && View(vectorStore) == old(View(vectorStore)))
        && (spec.Ok? ==> reply == Sent("PDF processed successfully") && View(vectorStore) == spec.value)
    {
      var saved := lib.savePdf(file.filename, file.data);
      if saved.Err? {
        return HttpError(500, "Failed to process PDF");
      }
      var documents := LoadPdf(saved.value, lib.loadPdf);
      var chunks := SplitText(documents, lib.split);
      var indexed := Ingest(chunks, lib);
      if indexed.Fail? {
        return HttpError(500, "Failed to process PDF");
      }
      reply := Sent("PDF processed successfully");
    }

    /** `scrape_url_endpoint`: every exception, its own 400 included, becomes a 500 whose detail
        carries the exception's text; otherwise the store is the indexed one. */
    method ScrapeUrlEndpoint(url: string, lib: Library) returns (reply: Reply<string>)
      requires Valid()
      modifies this, vectorStore
      ensures Valid()
      ensures var spec := UrlIngest(old(View(vectorStore)), url, lib);
        (spec.Err? ==> reply == HttpError(500, "Failed to scrape URL: " + spec.reason)
                       && View(vectorStore) == old(View(vectorStore)))
        && (spec.Ok? ==> reply == Sent("URL processed successfully") && View(vectorStore) == spec.value)
    {
      var documents, attempts := ScrapeUrlWithRetry(url, lib.loadUrl);
      if documents.value == [] {
        return HttpError(500, "Failed to scrape URL: " + ScrapeEmptyReason);
      }
      var chunks := SplitText(documents.value, lib.split);
      var indexed := Ingest(chunks, lib);
      if indexed.Fail? {
        return HttpError(500, "Failed to scrape URL: " + indexed.reason);
      }
      reply := Sent("URL processed successfully");
    }

    /** `query_endpoint`. The user's row is saved before anything else and stays whatever
        happens next. On success the assistant's row follows it, the exchange is saved to memory
        (a second time for a grounded answer, which `answer_question` saved already), and the
        reply lists the user's ten newest rows with the previews on the assistant rows. On an
        exception the reply is a 500 and neither the table nor the memory changes further. The
        store is only read. */
    method Query(request: QueryRequest, db: Database, lib: Library) returns (reply: Reply<ConversationResponse>)
      requires Valid() && db.Valid()
      modifies db, memory
      ensures Valid() && db.Valid()
      ensures View(vectorStore) == old(View(vectorStore))
      ensures var spec := Respond(request.question, request.searchMode, View(vectorStore),
                                  lib.render(old(memory.exchanges), memory.k), lib);
        var asked := Row(old(db.nextId), request.userId, "user", request.question);
        var exchange := Exchange(request.question, if spec.Ok? then spec.value.text else "");
        (spec.Err? ==>
           reply == HttpError(500, "Failed to process query: " + spec.reason)
           && db.rows == old(db.rows) + [asked]
           && memory.exchanges == old(memory.exchanges))
        && (spec.Ok? ==>
           db.rows == old(db.rows) + [asked, Row(old(db.nextId) + 1, request.userId, "assistant", spec.value.text)]
           && memory.exchanges == old(memory.exchanges) + (if spec.value.grounded then [exchange, exchange] else [exchange])
           && reply == Sent(ConversationResponse(Messages(GetConversations(db.rows, request.userId), spec.value.sources))))
    {
      var question, userId := request.question, request.userId;
      ghost var rows0, exchanges0 := db.rows, memory.exchanges;
      var asked := db.SaveMessage(userId, "user", question);
      var answer := Process(question, request.searchMode, View(vectorStore), lib);
      if answer.Err? {
        return HttpError(500, "Failed to process query: " + answer.reason);
      }
      var answered := db.SaveMessage(userId, "assistant", answer.value.text);
      assert db.rows == rows0 + [asked, answered];
      ghost var exchanges1 := memory.exchanges;
      memory.SaveContext(question, answer.value.text);
      assert memory.exchanges == exchanges1 + [Exchange(question, answer.value.text)];
      reply := Sent(ConversationResponse(Messages(GetConversations(db.rows, userId), answer.value.sources)));
    }

    /** The routing inside the `try` block of `query_endpoint`, over the store's contents: it
        computes `Respond` with the history as it stands, and the memory changes only when
        `answer_question` ran and got an answer, by that one exchange. */
    method Process(question: string, searchMode: string, store: Option<seq<Doc>>, lib: Library)
      returns (r: Result<Answer>)
      modifies memory
      ensures r == Respond(question, searchMode, store, lib.render(old(memory.exchanges), memory.k), lib)
      ensures r.Ok? && r.value.grounded ==> memory.exchanges == old(memory.exchanges) + [Exchange(question, r.value.text)]
      ensures !(r.Ok? && r.value.grounded) ==> memory.exchanges == old(memory.exchanges)
    {
      match RouteOf(question, searchMode) {
        case Summarize =>
          if store.None? {
            r := Ok(Answer(NoDocsToSummarize, [], false));
          } else {
            r := Plain(SummarizeText(Context(store.value), lib.chat));
          }
        case Translate(language) =>
          if store.None? {
            r := Ok(Answer(NoDocsToTranslate, [], false));
          } else {
            r := Plain(TranslateText(Context(store.value), lib.chat, language));
          }
        case Search(hybrid) =>
          var related := Retrieved(question, hybrid, store, lib);
          if related.Err? {
            return Err(related.reason);
          }
          var sources := Previews(related.value);
          if related.value == [] {
            return Ok(Answer(NoRelevantInfo, [], false));
          }
          var answer := AnswerQuestion(question, related.value, memory, lib.chat, lib.render);
          if answer.Err? {
            return Err(answer.reason);
          }
          r := Ok(Answer(answer.value, sources, true));
      }
    }

    /** `clear_documents_endpoint`: afterwards there is no store. */
    method ClearDocuments() returns (reply: Reply<string>)
      requires Valid()
      modifies this
      ensures Valid() && vectorStore == null && View(vectorStore) == None
      ensures reply == Sent("Document cache cleared")
    {
      vectorStore := ClearVectorStore(vectorStore);
      reply := Sent("Document cache cleared");
    }

    /** `clear_memory_endpoint`: the memory is emptied; the table is not touched. */
    method ClearMemory() returns (reply: Reply<string>)
      requires Valid()
      modifies memory
      ensures Valid() && memory.exchanges == []
      ensures reply == Sent("Conversation history cleared")
    {
      memory.Clear();
      reply := Sent("Conversation history cleared");
    }

    /** `clear_conversation_endpoint`: the memory is emptied and the rows of "default_user", and
        only those, are deleted, whoever the conversation belonged to. */
    method ClearConversation(db: Database) returns (reply: Reply<string>)
      requires Valid() && db.Valid()
      modifies memory, db
      ensures Valid() && db.Valid() && memory.exchanges == []
      ensures db.rows == Where(old(db.rows), (r: Row) => r.userId != DefaultUser)
      ensures reply == Sent("Conversation cleared")
    {
      memory.Clear();
      db.DeleteUser(DefaultUser);
      reply := Sent("Conversation cleared");
    }
  }
}
