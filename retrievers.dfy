/** `backend/retrievers.py`: semantic and hybrid retrieval over the store's contents. The
    searches themselves (FAISS similarity, BM25 ranking, ensemble fusion) are LangChain's and
    are parameters; this module decides when they run, over what, and with which settings.
    Both functions take the store's contents as a value, so neither can change the store. */
module Retrievers {
  import opened Documents

  const SemanticK: nat := 5
  const LexicalK: nat := 2
  const HybridSemanticK: nat := 3
  const LexicalWeight: real := 0.4
  const SemanticWeight: real := 0.6

  /** `BM25Retriever.from_documents(corpus)` with `k` set afterwards. */
  datatype LexicalRetriever = Bm25(corpus: seq<Doc>, k: nat)

  /** `vector_store.as_retriever(search_kwargs={"k": k})`. */
  datatype SemanticRetriever = Faiss(k: nat)

  /** `EnsembleRetriever(retrievers=[lexical, semantic], weights=weights)`. */
  datatype EnsemblePlan = EnsemblePlan(lexical: LexicalRetriever, semantic: SemanticRetriever, weights: seq<real>)

  /** `vector_store.similarity_search(query, k)` over the stored chunks. */
  type SimilaritySearch = (seq<Doc>, string, nat) -> Result<seq<Doc>>

  /** `ensemble_retriever.get_relevant_documents(query)`, the FAISS part searching the stored chunks. */
  type EnsembleSearch = (seq<Doc>, EnsemblePlan, string) -> Result<seq<Doc>>

  /** The lexical corpus: a fresh Document for every stored chunk, with its content and metadata. */
  function Corpus(entries: seq<Doc>): (c: seq<Doc>)
    ensures |c| == |entries|
    ensures forall i :: 0 <= i < |entries| ==>
      c[i].content == entries[i].content && c[i].metadata == entries[i].metadata
  {
    seq(|entries|, i requires 0 <= i < |entries| => Doc(entries[i].content, entries[i].metadata))
  }

  /** The retrievers `hybrid_retrieval` builds for one call: BM25 over a copy of every stored
      chunk with k = 2, FAISS with k = 3, weighted 0.4 and 0.6 in that order. */
  function HybridPlan(entries: seq<Doc>): (p: EnsemblePlan)
    ensures p.lexical.k == 2 && p.semantic.k == 3 && p.weights == [0.4, 0.6]
    ensures p.lexical.corpus == entries
  {
    var corpus := Corpus(entries);
    assert corpus == entries;
    EnsemblePlan(Bm25(corpus, LexicalK), Faiss(HybridSemanticK), [LexicalWeight, SemanticWeight])
  }

  /** `retrieve_docs`: nothing, without searching, when there is no store; otherwise the five
      nearest chunks as FAISS returns them. */
  function RetrieveDocs(query: string, store: Option<seq<Doc>>, search: SimilaritySearch): (r: Result<seq<Doc>>)
    ensures store.None? ==> r == Ok([])
    ensures store.Some? ==> r == search(store.value, query, 5)
  {
    if store.None? then Ok([]) else search(store.value, query, SemanticK)
  }

  /** `hybrid_retrieval`: nothing, without building any retriever, when there is no store;
      otherwise the ensemble's answer, with the lexical corpus rebuilt from the store on this call. */
  function HybridRetrieval(query: string, store: Option<seq<Doc>>, ensemble: EnsembleSearch): (r: Result<seq<Doc>>)
    ensures store.None? ==> r == Ok([])
    ensures store.Some? ==> r == ensemble(store.value, HybridPlan(store.value), query)
  {
    if store.None? then Ok([]) else ensemble(store.value, HybridPlan(store.value), query)
  }

  /** With no store neither retrieval consults its search function at all. */
  lemma NoStoreNoSearch(query: string, s1: SimilaritySearch, s2: SimilaritySearch,
                        e1: EnsembleSearch, e2: EnsembleSearch)
    ensures RetrieveDocs(query, None, s1) == RetrieveDocs(query, None, s2) == Ok([])
    ensures HybridRetrieval(query, None, e1) == HybridRetrieval(query, None, e2) == Ok([])
  {
  }
}
