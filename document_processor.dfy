/** `backend/document_processor.py`: loading PDFs and web pages into Documents, and the life
    cycle of the FAISS vector store (absent, then created, then appended to, then cleared).
    The PDF parser, the web loader, the text splitter and the embedding service are parameters. */
module DocumentProcessor {
  import opened Documents
  import opened PyStr

  /** `RecursiveCharacterTextSplitter(chunk_size=2000, chunk_overlap=200, add_start_index=True)`. */
  datatype SplitterSettings = SplitterSettings(chunkSize: nat, chunkOverlap: nat, addStartIndex: bool)

  const Splitter: SplitterSettings := SplitterSettings(2000, 200, true)

  /** `@retry(stop=stop_after_attempt(3), wait=wait_exponential(multiplier=1, min=4, max=10))`. */
  const RetryAttempts: nat := 3
  const BackoffMultiplier: nat := 1
  const BackoffMin: nat := 4
  const BackoffMax: nat := 10

  /** A FAISS store; `docstore` lists the stored chunks in insertion order (the values of
      `docstore._dict`). The embedding vectors themselves are not modelled. */
  class VectorStore {
    var docstore: seq<Doc>

    /** A store is only ever created from a non-empty batch and never shrinks. */
    ghost predicate Valid()
      reads this
    {
      docstore != []
    }

    /** `FAISS.from_documents(documents, EMBEDDINGS)`, once the embeddings came back. */
    constructor FromDocuments(documents: seq<Doc>)
      requires documents != []
      ensures Valid() && docstore == documents
    {
      docstore := documents;
    }

    /** `add_documents(documents)`, once the embeddings came back: appended after what is there. */
    method AddDocuments(documents: seq<Doc>)
      requires Valid()
      modifies this
      ensures Valid() && docstore == old(docstore) + documents
    {
      docstore := docstore + documents;
    }
  }

  /** What a (possibly absent) store holds: `None` for `vector_store is None`. */
  function View(store: VectorStore?): Option<seq<Doc>>
    reads store
  {
    if store == null then None else Some(store.docstore)
  }

  /** The chunks held, none when there is no store. */
  function Entries(view: Option<seq<Doc>>): seq<Doc> {
    if view.None? then [] else view.value
  }

  /** `load_pdf`: what the parser extracted, and no Documents at all when it extracted nothing
      or raised. It never raises. */
  function LoadPdf(path: string, parse: string -> Result<seq<Doc>>): (r: seq<Doc>)
    ensures parse(path).Err? ==> r == []
    ensures parse(path).Ok? ==> r == parse(path).value
  {
    match parse(path)
    case Err(_) => []
    case Ok(documents) => if documents == [] then [] else documents
  }

  /** `(doc.page_content.strip() for doc in documents if doc.page_content)`: one stripped text per
      page whose raw content is not empty. */
  function PageTexts(pages: seq<Doc>): (r: seq<string>)
    ensures |r| <= |pages|
    ensures forall i :: 0 <= i < |r| ==> Trimmed(r[i])
    decreases |pages|
  {
    if pages == [] then []
    else
      var rest := PageTexts(pages[1..]);
      if pages[0].content != "" then [Strip(pages[0].content)] + rest else rest
  }

  /** The cleaned text of a scraped page: its pieces joined by single spaces. */
  function CleanText(pages: seq<Doc>): string {
    Join(" ", PageTexts(pages))
  }

  /** A single page gives the strip of its content when that content is not empty, and nothing
      otherwise. With `PageTextsAppend` this fixes the texts of every sequence of pages. */
  lemma PageTextsOne(d: Doc)
    ensures PageTexts([d]) == (if d.content != "" then [Strip(d.content)] else [])
  {
    assert [d][1..] == [];
  }

  /** The cleanup runs page by page: the texts of `a + b` are those of `a`, then those of `b`. */
  lemma {:induction false} PageTextsAppend(a: seq<Doc>, b: seq<Doc>)
    ensures PageTexts(a + b) == PageTexts(a) + PageTexts(b)
    decreases |a|
  {
    if a == [] {
      assert a + b == b;
    } else {
      assert (a + b)[0] == a[0] && (a + b)[1..] == a[1..] + b;
      PageTextsAppend(a[1..], b);
    }
  }

  /** A page with empty content adds nothing to the cleaned text, while a page holding only
      whitespace passes the filter and adds an empty piece: one more separating space. */
  lemma CleanTextPageEffect(pages: seq<Doc>, m: Metadata, blank: string)
    requires PageTexts(pages) != [] && blank != [] && AllSpace(blank)
    ensures CleanText(pages + [Doc("", m)]) == CleanText(pages)
    ensures CleanText(pages + [Doc(blank, m)]) == CleanText(pages) + " "
  {
    PageTextsAppend(pages, [Doc("", m)]);
    assert PageTexts(pages + [Doc("", m)]) == PageTexts(pages);
    PageTextsAppend(pages, [Doc(blank, m)]);
    StripEmptyIff(blank);
    assert PageTexts([Doc(blank, m)]) == [""];
    JoinSnoc(" ", PageTexts(pages), "");
  }

  /** `scrape_url`: when the loader returned pages, exactly one Document whose content is the
      cleaned text and whose metadata is `{"source": url}`; otherwise, and when the loader
      raised, no Documents. It never raises. */
  function ScrapeUrl(url: string, load: string -> Result<seq<Doc>>): (r: seq<Doc>)
    ensures |r| <= 1
    ensures r != [] <==> load(url).Ok? && load(url).value != []
    ensures r != [] ==> r[0] == Doc(CleanText(load(url).value), map["source" := Text(url)])
  {
    match load(url)
    case Err(_) => []
    case Ok(documents) =>
      if documents != [] then [Doc(CleanText(documents), map["source" := Text(url)])] else []
  }

  /** `split_text`: the splitter, run with the settings above. Chunking is LangChain's. */
  function SplitText(documents: seq<Doc>, split: (seq<Doc>, SplitterSettings) -> seq<Doc>): seq<Doc> {
    split(documents, Splitter)
  }

  /** What `index_docs` does to the store's contents: nothing for no chunks; otherwise the
      embeddings are computed (which may raise) and the chunks end up after whatever was held. */
  function Indexed(view: Option<seq<Doc>>, documents: seq<Doc>, embed: seq<Doc> -> Outcome)
    : (r: Result<Option<seq<Doc>>>)
    ensures documents == [] ==> r == Ok(view)
    ensures documents != [] ==> (r.Ok? <==> embed(documents).Pass?)
    ensures documents != [] && r.Ok? ==> r.value.Some? && r.value.value == Entries(view) + documents
    ensures documents != [] && embed(documents).Fail? ==> r == Err(embed(documents).reason)
  {
    if documents == [] then Ok(view)
    else match embed(documents)
      case Fail(reason) => Err(reason)
      case Pass => Ok(Some(Entries(view) + documents))
  }

  /** Indexing never loses a stored chunk: what was held stays, in front, in order. */
  lemma IndexedKeepsEntries(view: Option<seq<Doc>>, documents: seq<Doc>, embed: seq<Doc> -> Outcome)
    requires Indexed(view, documents, embed).Ok?
    ensures Entries(view) <= Entries(Indexed(view, documents, embed).value)
  {
  }

  /** Indexing into an absent or a valid (non-empty) store leaves an absent or non-empty one. */
  lemma IndexedStaysNonEmpty(view: Option<seq<Doc>>, documents: seq<Doc>, embed: seq<Doc> -> Outcome)
    requires view.Some? ==> view.value != []
    requires Indexed(view, documents, embed).Ok?
    ensures var v := Indexed(view, documents, embed).value; v.Some? ==> v.value != []
  {
  }

  /** `index_docs`: with no chunks the store is returned as it was, absent or not; with chunks an
      absent store is created holding exactly them, and an existing one has them appended in
      place and is returned itself. A raised embedding error leaves the store as it was. */
  method IndexDocs(documents: seq<Doc>, store: VectorStore?, embed: seq<Doc> -> Outcome)
    returns (r: Result<VectorStore?>)
    requires store != null ==> store.Valid()
    modifies store
    ensures r.Ok? && r.value != null ==> r.value.Valid()
    ensures var spec := Indexed(old(View(store)), documents, embed);
      (r.Ok? <==> spec.Ok?) && (r.Err? ==> r.reason == spec.reason)
      && (r.Ok? ==> View(r.value) == spec.value)
    ensures r.Ok? && (documents == [] || store != null) ==> r.value == store
    ensures r.Ok? && store == null && documents != [] ==> r.value != null && fresh(r.value)
    ensures r.Err? && store != null ==> store.docstore == old(store.docstore)
  {
    if documents != [] {
      var embedded := embed(documents);
      if embedded.Fail? {
        return Err(embedded.reason);
      }
      if store == null {
        var created := new VectorStore.FromDocuments(documents);
        assert Entries(old(View(store))) + documents == documents;
        return Ok(created);
      } else {
        store.AddDocuments(documents);
      }
    }
    return Ok(store);
  }

  /** `clear_vector_store`: whatever it is given, there is no store afterwards. */
  function ClearVectorStore(store: VectorStore?): (r: VectorStore?)
    ensures r == null
  {
    null
  }

  /** tenacity's `wait_exponential`: `multiplier * 2 ** (n - 1)` seconds after the n-th failed
      attempt, clamped to `[min, max]`. */
  function BackoffDelay(attemptNumber: nat): (seconds: nat)
    requires attemptNumber >= 1
    ensures BackoffMin <= seconds <= BackoffMax
  {
    var raw := BackoffMultiplier * Pow2(attemptNumber - 1);
    if raw < BackoffMin then BackoffMin else if raw > BackoffMax then BackoffMax else raw
  }

  function Pow2(n: nat): nat {
    if n == 0 then 1 else 2 * Pow2(n - 1)
  }

  /** The decorator's loop: attempt until one returns or three have raised, sleeping the backoff
      delay after each failed attempt but the last. `attempt(i)` is the outcome of the (i+1)-th
      attempt; after three failures tenacity raises `RetryError`. Sleeping is only recorded, in
      `waits`. */
  method Retry<T>(attempt: nat -> Result<T>) returns (r: Result<T>, attempts: nat, waits: seq<nat>)
    ensures 1 <= attempts <= RetryAttempts
    ensures forall i :: 0 <= i < attempts - 1 ==> attempt(i).Err?
    ensures attempt(attempts - 1).Ok? ==> r == attempt(attempts - 1)
    ensures attempt(attempts - 1).Err? ==> attempts == RetryAttempts && r == Err("RetryError")
    ensures |waits| == attempts - 1
    ensures forall i :: 0 <= i < |waits| ==> waits[i] == BackoffDelay(i + 1)
  {
    attempts := 1;
    waits := [];
    r := attempt(0);
    while r.Err? && attempts < RetryAttempts
      invariant 1 <= attempts <= RetryAttempts
      invariant r == attempt(attempts - 1)
      invariant forall i :: 0 <= i < attempts - 1 ==> attempt(i).Err?
      invariant |waits| == attempts - 1
      invariant forall i :: 0 <= i < |waits| ==> waits[i] == BackoffDelay(i + 1)
    {
      waits := waits + [BackoffDelay(attempts)];
      r := attempt(attempts);
      attempts := attempts + 1;
    }
    if r.Err? {
      r := Err("RetryError");
    }
  }

  /** Both possible waits are four seconds: the exponential never rises above the minimum
      within three attempts. */
  lemma BackoffWaits()
    ensures BackoffDelay(1) == 4 && BackoffDelay(2) == 4
  {
  }

  /** `scrape_url` under its retry decorator: since the function never raises, the first
      attempt is the only one. */
  method ScrapeUrlWithRetry(url: string, load: string -> Result<seq<Doc>>)
    returns (documents: Result<seq<Doc>>, attempts: nat)
    ensures documents == Ok(ScrapeUrl(url, load)) && attempts == 1
  {
    var attempt := (i: nat) => Ok(ScrapeUrl(url, load));
    var waits;
    documents, attempts, waits := Retry(attempt);
    assert attempt(0).Ok?;
  }
}
