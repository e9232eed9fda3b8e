# RAG backend: a Dafny model

This project models the backend of a retrieval-augmented question-answering service. The service is built on FastAPI, LangChain, FAISS and SQLAlchemy. Users upload PDFs or submit URLs. The backend chunks and indexes their text in a FAISS vector store, then answers questions over the stored chunks with a chat model. It can also summarise or translate everything stored. Every message is kept in a `conversations` table, and one process-wide window memory feeds recent exchanges back into the QA prompt.

The model covers what the repository itself decides:

- **Query routing.** `query_endpoint` first tests for "summarize", then for a "translate:" prefix, then picks the search mode. It chooses among three fixed fallback messages. It saves the user row, then the assistant row, then the memory exchange, in that order. It builds the source previews (the first 300 characters of each chunk) and the message list.
- **Index lifecycle.** The store starts absent. `index_docs` creates it or appends to it, and leaves it untouched when there is nothing to index. `clear_vector_store` resets it. `load_pdf` and `scrape_url` turn every failure into an empty list. The scrape cleanup strips each page, drops empty pages and joins the rest with spaces. The retry decorator's loop is modelled too.
- **Retrieval guards.** With no store, both retrievals return nothing and search nothing. The hybrid plan rebuilds its BM25 corpus from every stored chunk, with k = 2 and 3 and weights [0.4, 0.6].
- **Answer assembly.** Context is the chunk contents joined by blank lines. The QA, summary and translation templates are filled exactly. History is read before the new exchange is saved.
- **Conversation table.** Rows are appended with increasing keys; newest-first queries use `get_conversations`, and oldest-first queries use the history endpoint.

How each part is modelled:

- Every call into a library is a function-typed parameter, bundled in `Api.Library`: saving the upload, the PDF and web loaders, the splitter, embeddings, FAISS search, the ensemble retriever, the chat model and history rendering. A Python exception is `Result.Err(reason)`, where `reason` is `str(e)` (two model-side errors are the exceptions, listed under "Left out").
- The module globals `vector_store` and `memory` are fields of `Api.Server`.
- The FAISS store (`DocumentProcessor.VectorStore`), the memory (`Chains.Memory`) and the table (`Crud.Database`) are classes, because the source updates them in place.
- Routing, previews, prompts and queries are functions, with lemmas relating them.

Some behaviour follows from the code as written and is stated as such:

- A grounded answer enters memory twice: once inside `answer_question` and once more in the endpoint (`Api.Server.Query`).
- The "French" default of the translate branch cannot be reached, because the prefix test already guarantees a colon (`Api.TranslateLanguageParsed`).
- The scrape endpoint's own `HTTPException(400)` is caught by its `except Exception`. The client therefore gets a 500 with detail "Failed to scrape URL: 400: Failed to scrape URL" (`Api.UrlIngest`, `Api.Server.ScrapeUrlEndpoint`).
- A PDF that nothing could be read from still reports success and leaves the index as it was (`Api.UnreadablePdfStillSucceeds`).
- The history endpoint returns the user's *oldest* ten rows, while `get_conversations` returns the newest ten (`Crud.OldestConversationsOldestFirst`, `Crud.GetConversationsNewestFirst`).

Two notes on state:

- **Memory window.** `ConversationBufferWindowMemory` does not evict on insert. It keeps every message and applies `k = 3` only when it renders history. So `Chains.Memory` keeps every exchange, and the window is left to the rendering parameter.
- **Empty-store tests.** `not vector_store` in the endpoint is the code's absence test. A store is only ever created from a non-empty batch (`FAISS.from_documents` is only reached with chunks) and never shrinks. This is the class invariant `DocumentProcessor.VectorStore.Valid`, established by its constructor, kept by `AddDocuments` and `IndexDocs`, and part of `Api.Server.Valid`. So the test is true exactly when there is no store.

Files:

- `documents.dfy`: Documents, metadata, `Result`/`Option`/`Outcome`.
- `pystr.dfy`: the Python string operations used.
- `prompts.dfy`: template filling.
- `config.dfy`: model settings and the three templates.
- `chains.dfy`: `backend/chains.py` and the memory.
- `document_processor.dfy`: `backend/document_processor.py`.
- `retrievers.dfy`: `backend/retrievers.py`.
- `crud.dfy`: `backend/crud.py` over `backend/models.py`.
- `api.dfy`: `backend/main.py` over `backend/schemas.py`.

## Model

| member | source | states |
|---|---|---|
| Documents.PageContents | backend/chains.py:10 | one content string per Document, in order, each equal to that Document's `page_content` |
| PyStr.Strip | backend/document_processor.py:42 | `str.strip()` leaves no whitespace (Python's full `isspace` set) at either end and never lengthens the string |
| PyStr.TrimStart | backend/document_processor.py:42 | the left strip is a suffix of the input, everything cut off is whitespace, and the result does not start with whitespace |
| PyStr.TrimEnd | backend/document_processor.py:42 | the right strip is a prefix of the input, everything cut off is whitespace, and the result does not end with whitespace |
| PyStr.StripSpec | backend/main.py:86 | the stripped string is a contiguous slice `s[i..j]` of the input, and everything cut off on either side is whitespace |
| PyStr.StripIsSlice | backend/main.py:86 | the strip is the slice between the two cut points |
| PyStr.StripCutFront | backend/main.py:86 | everything before the first cut point is whitespace |
| PyStr.StripCutBack | backend/main.py:86 | everything after the second cut point is whitespace |
| PyStr.StripEmptyIff | backend/document_processor.py:42 | a string strips to empty exactly when it is all whitespace (both directions) |
| PyStr.Lower | backend/main.py:79 | `str.lower()` keeps the length and lowers each character |
| PyStr.IndexOf | backend/main.py:86 | the index `split(":", 1)` splits at holds the character, which does not occur before it |
| PyStr.Truncate | backend/main.py:95 | `s[:n]` (and, on rows, `.limit(n)`) is a prefix of `s` of length `min(|s|, n)` |
| PyStr.JoinSnoc | backend/document_processor.py:42 | `sep.join` of one more part appends one separator and that part, so the parts appear in order with one separator between neighbours |
| PyStr.Join | backend/document_processor.py:42 | `sep.join(parts)`: no parts give "", one part gives itself, and `PyStr.JoinSnoc` fixes every longer list |
| PyStr.AfterFirst | backend/main.py:86 | `s.split(c, 1)[1]`: the suffix of `s` right after a `c`, with no `c` in front of that one |
| Prompts.Fill | backend/chains.py:14-18 | formatting a template succeeds exactly when every placeholder has a value (otherwise it raises) |
| Prompts.FillFrom | backend/chains.py:14-18 | a template is filled piece by piece, left to right: each literal as written, each placeholder by its value |
| Chains.QaPrompt | backend/config.py:22-30 | the QA prompt is exactly the template's text with history, then context, then question in their places |
| Chains.SummaryPrompt | backend/config.py:32-34 | the summary prompt is exactly the instruction, a blank line, the text and a newline |
| Chains.TranslationPrompt | backend/config.py:36-38 | the translation prompt names the target language, then a blank line, then the text |
| Chains.Memory.constructor | backend/main.py:34 | a new memory has window size k and no exchanges |
| Chains.Memory.SaveContext | backend/chains.py:20 | saving appends exactly the exchange (input, output) after all earlier ones |
| Chains.Memory.Clear | backend/main.py:154 | after clearing no exchange is left |
| Chains.AnswerQuestion | backend/chains.py:9-21 | the model is asked once, on the QA prompt built from the history as read before any save, the joined context and the question. Exactly one exchange (question, answer) is saved, only when an answer came back, and the returned text is the one saved |
| Chains.SummarizeText | backend/chains.py:23-27 | one model call on the filled summary prompt; no memory involved |
| Chains.TranslateText | backend/chains.py:29-33 | one model call on the filled translation prompt for the given language; no memory involved |
| Chains.TranslateDefaultsToHindi | backend/chains.py:29 | without a language, the translation prompt asks for Hindi |
| Chains.ContextAppend | backend/chains.py:10 | one chunk's context is its content, and each further chunk adds a blank line and its content at the end |
| Chains.Context | backend/chains.py:10 | the chunk contents joined by blank lines; `Chains.ContextAppend` fixes it chunk by chunk |
| Chains.Invoke | backend/chains.py:12-14 | `(prompt \| MODEL).invoke(...)`: a prompt error is raised with its text, otherwise the chat model's reply to the filled prompt. It has no contract of its own; `Chains.SummarizeText`, `Chains.TranslateText` and `Chains.AnswerQuestion` state its effect |
| Chains.Memory.History | backend/chains.py:17 | `load_memory_variables({})['history']`: the rendering of all stored exchanges with the window k, which is a parameter. It has no contract of its own; `Chains.AnswerQuestion` states its use |
| DocumentProcessor.VectorStore.FromDocuments | backend/document_processor.py:62 | a store is created only from a non-empty batch of chunks; it holds exactly those chunks and satisfies the store invariant (non-empty) |
| DocumentProcessor.VectorStore.AddDocuments | backend/document_processor.py:65 | adding chunks appends them after the existing entries, which all stay, and keeps the store invariant |
| DocumentProcessor.LoadPdf | backend/document_processor.py:24-34 | `load_pdf` never raises: a parser error gives no Documents, and otherwise the result is what the parser extracted (none when it extracted none) |
| DocumentProcessor.PageTexts | backend/document_processor.py:42 | the cleanup yields at most one text per page, each with no whitespace at either end |
| DocumentProcessor.PageTextsOne | backend/document_processor.py:42 | one page gives exactly one text, the strip of its content, when that content is not empty, and none otherwise. With `PageTextsAppend` this fixes the texts of every page sequence |
| DocumentProcessor.PageTextsAppend | backend/document_processor.py:42 | the cleanup works page by page: the texts of `a + b` are those of `a` followed by those of `b` |
| DocumentProcessor.CleanText | backend/document_processor.py:42 | the page texts joined by single spaces; `DocumentProcessor.PageTextsOne`, `PageTextsAppend` and `CleanTextPageEffect` fix it |
| DocumentProcessor.SplitText | backend/document_processor.py:51-57 | the splitter's chunks under the fixed settings (2000 characters, overlap 200, start index on). It has no contract of its own; `Api.PdfIngest` and `Api.UrlIngest` state its use |
| DocumentProcessor.CleanTextPageEffect | backend/document_processor.py:42 | the filter tests the raw content: an empty page adds nothing to the cleaned text, while a whitespace-only page adds one more space |
| DocumentProcessor.ScrapeUrl | backend/document_processor.py:37-49 | `scrape_url` never raises. It returns one Document (cleaned text, metadata `{"source": url}`) exactly when the loader returned pages, and no Documents otherwise |
| DocumentProcessor.Indexed | backend/document_processor.py:59-69 | indexing no chunks leaves the store as it was, absent or not. Otherwise it succeeds exactly when the embeddings come back, and the store then holds the old entries followed by the new chunks. An embedding error is raised with its own text |
| DocumentProcessor.IndexedKeepsEntries | backend/document_processor.py:64-65 | indexing never loses a stored chunk: the old entries stay in front, in order |
| DocumentProcessor.IndexedStaysNonEmpty | backend/document_processor.py:60-66 | from an absent or non-empty store, indexing leaves an absent or non-empty store |
| DocumentProcessor.IndexDocs | backend/document_processor.py:59-69 | `index_docs` agrees with `Indexed`. With no chunks it returns the store it was given, `None` included. On `None` it returns a fresh store. An existing store is appended to in place and returned itself. An embedding error leaves the store unchanged. A returned store satisfies the store invariant |
| DocumentProcessor.ClearVectorStore | backend/document_processor.py:71-73 | whatever it is given, the result is `None`, so clearing is idempotent |
| DocumentProcessor.BackoffDelay | backend/document_processor.py:36 | each exponential wait is clamped to between 4 and 10 seconds |
| DocumentProcessor.Retry | backend/document_processor.py:36 | at most three attempts, each earlier one having raised. The first success is returned; after three failures the error is `RetryError`. The recorded waits are the backoff delays after the 1st and 2nd failure |
| DocumentProcessor.BackoffWaits | backend/document_processor.py:36 | both possible waits are 4 seconds |
| DocumentProcessor.ScrapeUrlWithRetry | backend/document_processor.py:36-49 | under the retry decorator, `scrape_url` runs exactly once and its result is returned as is |
| Retrievers.Corpus | backend/retrievers.py:45-48 | the BM25 corpus has one Document per stored chunk, same content and metadata, in store order |
| Retrievers.HybridPlan | backend/retrievers.py:45-54 | hybrid search uses BM25 over every stored chunk with k = 2 and FAISS with k = 3, weighted [0.4, 0.6] in that order |
| Retrievers.RetrieveDocs | backend/retrievers.py:13-29 | no store gives no chunks without a search; otherwise the FAISS answer for k = 5 over the stored chunks |
| Retrievers.HybridRetrieval | backend/retrievers.py:31-57 | no store gives no chunks without building a retriever; otherwise the ensemble's answer under the hybrid plan |
| Retrievers.NoStoreNoSearch | backend/retrievers.py:24-26 | with no store, neither retrieval depends on its search function |
| Crud.Database.constructor | backend/models.py:11-16 | an empty table whose keys will start at 1 |
| Crud.Database.SaveMessage | backend/crud.py:7-12 | exactly one row (fresh key, given user, role, content) is appended after the others, which are unchanged, and the stored row is returned; keys stay increasing |
| Crud.Database.DeleteUser | backend/main.py:165-166 | exactly the rows of the given user are removed; the others stay, in order |
| Crud.WhereMembers | backend/crud.py:15 | a row is in the filtered result exactly when it is in the table and matches the filter |
| Crud.Where | backend/crud.py:15 | `.filter(...)`: never more rows than the table; `Crud.WhereMembers` and `Crud.WhereKeepsAscending` fix its contents and order |
| Crud.OfUser | backend/crud.py:15 | the filter on `user_id`; `Crud.GetConversationsNewestFirst` and `Crud.OldestConversationsOldestFirst` state what it keeps |
| Crud.WhereKeepsAscending | backend/crud.py:15 | filtering a table in key order keeps key order |
| Crud.Reverse | backend/crud.py:15 | the reversal holds the same rows, last first |
| Crud.GetConversations | backend/crud.py:14-15 | at most `limit` rows, 10 by default |
| Crud.GetConversationsNewestFirst | backend/crud.py:14-15 | in a table with increasing keys, `get_conversations` returns only the user's rows, newest first, `min(count, limit)` of them, and no row of the user left out is newer than one returned |
| Crud.OldestConversations | backend/main.py:130 | at most 10 rows |
| Crud.OldestConversationsOldestFirst | backend/main.py:130 | the history query returns the user's rows oldest first, `min(count, 10)` of them, and no row of the user left out is older than one returned |
| PyStr.IndexOfUnique | backend/main.py:86 | the first occurrence of a character is the position before which it does not occur |
| Api.TranslateLanguageParsed | backend/main.py:85-86 | a question passing the translate test contains a colon (so "French" is never chosen), and its language is the text after the prefix, stripped |
| Api.TranslateWithoutLanguage | backend/main.py:86 | "translate:" followed by nothing or only whitespace asks for the empty language |
| Api.IsSummarize | backend/main.py:79 | `question.lower() == "summarize"`; `Api.RouteOf` states its place in the routing |
| Api.IsTranslate | backend/main.py:85 | `question.lower().startswith("translate:")`; `Api.RouteOf` states its place in the routing |
| Api.TargetLanguage | backend/main.py:86 | the text after the first colon, stripped, or "French" without a colon; `Api.TranslateLanguageParsed` shows the colon is always at index 9 |
| Api.Retrieved | backend/main.py:93 | the hybrid retrieval when asked for, the semantic one otherwise; `Api.SearchOutcome` states this for the mode string |
| Api.RouteOf | backend/main.py:79-93 | the summarize branch is taken exactly for "summarize" in any case. Translate is taken exactly when summarize is not and the prefix matches, with the parsed language. Hybrid retrieval is chosen exactly for the mode "Hybrid" |
| Api.Previews | backend/main.py:94-97 | one preview per retrieved chunk, in order, with metadata unchanged and content the first `min(len, 300)` characters |
| Api.Plain | backend/main.py:84 | a model reply becomes an answer without sources, and a raised error stays an error with the same text |
| Api.Respond | backend/main.py:78-101 | with no index, summarize and translate give their "No documents" messages and an ordinary question gives the no-information message. With an index, summarize and translate call the model once on all stored contents joined by blank lines. Only a grounded answer has sources, and only one from the search branch with a non-empty retrieval |
| Api.SearchOutcome | backend/main.py:93-101 | for an ordinary question, the exact mode "Hybrid" runs the hybrid retrieval and every other mode the semantic one. A retrieval error raises and an empty retrieval gives the no-information message. Otherwise the answer is the model's reply to the QA prompt over the retrieved chunks, with one preview per chunk; a model error is raised with its own text |
| Api.NoIndexNoCalls | backend/main.py:79-99 | with no index, the response does not depend on any library function and is one of the three fixed messages |
| Api.EmptyRetrievalSkipsModel | backend/main.py:98-99 | an empty retrieval never reaches the model: the response is the no-information message whatever the chat model does |
| Api.SummarizeTakesPriority | backend/main.py:79-84 | for "summarize", neither the search mode, the history nor the search functions affect the response |
| Api.Messages | backend/main.py:112-118 | one message per row with its role and content; every assistant row carries the previews, and no other row carries any |
| Api.History | backend/main.py:126-139 | at most 10 messages, none with sources: one per row of the history query, with that row's role and content, and those rows are the user's oldest, oldest first |
| Api.PdfIngest | backend/main.py:39-43 | a failed save raises with its text. Otherwise, with the chunks of the split PDF: no chunks leave the store as it was. Some chunks succeed exactly when their embeddings come back, and the store then holds the old entries followed by those chunks; an embedding error keeps its text. No stored chunk is ever lost |
| Api.UnreadablePdfStillSucceeds | backend/main.py:40-45 | a PDF the parser could not read, or read nothing from, leaves the index as it was while the upload succeeds |
| Api.UrlIngest | backend/main.py:53-58 | no scraped pages raise the endpoint's 400, whose text is "400: Failed to scrape URL". Otherwise, with the chunks of the split page: no chunks leave the store as it was. Some chunks succeed exactly when their embeddings come back, and the store then holds the old entries followed by those chunks; an embedding error keeps its text |
| Api.Server.constructor | backend/main.py:33-34 | the process starts with no store and an empty memory with k = 3 |
| Api.Server.Ingest | backend/main.py:43 | `vector_store = index_docs(...)`: the store becomes the indexed one, or stays as it was when indexing raised, and remains absent or non-empty |
| Api.Server.UploadPdf | backend/main.py:36-48 | any exception gives a 500 with the fixed detail "Failed to process PDF" and an unchanged store. Otherwise the reply is "PDF processed successfully" and the store is the indexed one |
| Api.Server.ScrapeUrlEndpoint | backend/main.py:50-63 | every exception, the endpoint's own 400 included, gives a 500 with detail "Failed to scrape URL: " plus its text and an unchanged store. Otherwise the reply is "URL processed successfully" and the store is the indexed one |
| Api.Server.Query | backend/main.py:65-124 | the user row is saved first and stays even when processing fails. On failure the reply is a 500 "Failed to process query: ..." and nothing else changes. On success the assistant row follows, and memory gains the exchange once, or twice for a grounded answer. The reply lists the user's ten newest rows with the previews on the assistant rows. The store is only read |
| Api.Server.Process | backend/main.py:77-101 | the `try` block computes `Respond` on the history as it stands, and the memory changes (by one exchange) only when `answer_question` got an answer |
| Api.Server.ClearDocuments | backend/main.py:144-149 | afterwards there is no store; the reply is "Document cache cleared" |
| Api.Server.ClearMemory | backend/main.py:151-156 | the memory is emptied, nothing else changes, and the reply is "Conversation history cleared" |
| Api.Server.ClearConversation | backend/main.py:158-171 | the memory is emptied and exactly the rows of "default_user" are deleted; the reply is "Conversation cleared" |

## Left out

- Chunking: `split_text` is modelled by its settings (2000/200, start index on) only. The splitter itself is LangChain's and is a parameter. The model assumes it does not raise.
- FAISS similarity, BM25 scoring and the ensemble's rank fusion are parameters. No ranking or fusion arithmetic is modelled, and the two weights are constants with no arithmetic on them.
- How `ConversationBufferWindowMemory` renders and windows history is a parameter (`render`, given the exchanges and k).
- The chat model and the embedding service are parameters. Only their settings are kept (model names and temperature), as constants.
- File, network and process I/O are parameters, and their failures are `Err`: writing the upload (`upload_pdf`), PDFPlumber, WebBaseLoader's fetch with its timeout and User-Agent, and environment loading with `makedirs` in the configuration.
- Sleeping between retries is only recorded as the list of waits.
- Logging is not modelled: it has no effect on results.
- HTTP plumbing beyond the endpoint outcomes (status code and detail) is not modelled: routing, request validation, `get_db` session opening and closing, and `commit`.
- Crud.Database.SaveMessage: the commit is taken to always succeed. In the code a failed commit raises. For the user row (main.py:75) that is an unhandled 500. For the assistant row (main.py:105) it is a 500 from the query's handler, after a grounded answer has already entered memory inside `answer_question`. The model's `Api.Server.Query` has neither outcome.
- Api.History: the endpoint's `except` branch (a 500 "Failed to fetch history") is not modelled, because reading the in-memory table cannot fail.
- Api.Server.ClearConversation: the endpoint's `except` branch (a 500 "Failed to clear conversation") is not modelled, because deleting from the in-memory table cannot fail.
- Database engine and keys: the table is an in-memory sequence. A key is one more than every key issued before. The database could reuse a deleted maximum key, and that is not modelled.
- Concurrency: the globals are shared across async requests in the running service. Each request is modelled as one sequential step.
- PyStr.Lower: lowercases ASCII letters only and keeps every other character. The two routing tests compare with the ASCII strings "summarize" and "translate:". The only characters outside ASCII whose Python lowercase contains an ASCII letter are U+0130 (to "i" plus a combining dot) and U+212A (to "k"), and neither can complete either string. So the routing decisions agree with Python's for every question.
- Two error texts are the model's own rather than a Python `str(e)`: `Err("RetryError")` after three failed attempts (`DocumentProcessor.Retry`) and the missing-variable error of `Prompts.Fill`. Neither reaches an endpoint, because `scrape_url` never raises and every template is filled with all its variables.
- Metadata values are strings or integers; other JSON values a loader might store are not modelled.
- The per-user partitioning of memory is not modelled: the memory is one shared window, as in the code.
- The frontend (Streamlit UI) is not modelled: it holds no backend logic.
