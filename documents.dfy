/** The values that flow through the backend: LangChain `Document`s and the outcome of a call
    into a library, which either returns or raises. */
module Documents {

  /** A metadata value. Loaders put strings (`source`) and integers (`page`, `start_index`) here. */
  datatype MetaValue = Text(text: string) | Number(number: int)

  type Metadata = map<string, MetaValue>

  /** `langchain_core.documents.Document`: `page_content` and `metadata`. */
  datatype Doc = Doc(content: string, metadata: Metadata)

  datatype Option<+T> = None | Some(value: T)

  /** What a call into a library does: return a value, or raise an exception whose `str(e)`
      is `reason`. */
  datatype Result<+T> = Ok(value: T) | Err(reason: string)

  /** A library call run only for its effect (computing embeddings, say): it passes or raises. */
  datatype Outcome = Pass | Fail(reason: string)

  /** `[doc.page_content for doc in docs]`. */
  function PageContents(docs: seq<Doc>): (r: seq<string>)
    ensures |r| == |docs|
    ensures forall i :: 0 <= i < |docs| ==> r[i] == docs[i].content
  {
    seq(|docs|, i requires 0 <= i < |docs| => docs[i].content)
  }
}
