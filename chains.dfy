/** The language-model chains of `backend/chains.py` and the conversation memory they share.
    The chat model is the parameter `chat`: it takes the filled-in prompt and returns the
    response's `content`, or raises. */
module Chains {
  import opened Documents
  import opened PyStr
  import opened Prompts
  import opened Config

  /** One question/answer pair as `save_context` stores it. */
  datatype Exchange = Exchange(input: string, output: string)

  /** `ConversationBufferWindowMemory(k=...)`. It keeps every exchange saved into it; the window
      of the last `k` exchanges is applied when history is rendered, by the `render` parameter
      (LangChain's rendering, not modelled). */
  class Memory {
    const k: nat
    var exchanges: seq<Exchange>

    constructor (k: nat)
      ensures this.k == k && exchanges == []
    {
      this.k := k;
      exchanges := [];
    }

    /** `load_memory_variables({})['history']`: reads the memory, changes nothing. */
    function History(render: (seq<Exchange>, nat) -> string): string
      reads this
    {
      render(exchanges, k)
    }

    /** `save_context({"input": input}, {"output": output})`. */
    method SaveContext(input: string, output: string)
      modifies this
      ensures exchanges == old(exchanges) + [Exchange(input, output)]
    {
      exchanges := exchanges + [Exchange(input, output)];
    }

    /** `clear()`. */
    method Clear()
      modifies this
      ensures exchanges == []
    {
      exchanges := [];
    }
  }

  /** `prompt | MODEL` run on a prompt: formatting errors and model errors both raise. */
  function Invoke(prompt: Result<string>, chat: string -> Result<string>): Result<string> {
    if prompt.Err? then Err(prompt.reason) else chat(prompt.value)
  }

  /** The retrieved chunks' contents, in the order given, separated by blank lines. */
  function Context(documents: seq<Doc>): string {
    Join("\n\n", PageContents(documents))
  }

  /** The QA prompt: `QA_TEMPLATE` with history, context and question filled in, in that order
      (the layout is written nested to the right, the way the template is filled piece by piece). */
  function QaPrompt(history: string, context: string, question: string): (r: Result<string>)
    ensures r == Ok("\nConversation History:\n" + (history + ("\n\nContext:\n" + (context
                    + ("\n\nQuestion: " + (question + "\nAnswer:"))))))
  {
    var vars := map["question" := question, "context" := context, "history" := history];
    var t := QaTemplate;
    assert t[7..] == [];
    FillFrom(t, 6, vars, "");
    assert PieceText(t[6], vars) + "" == "\nAnswer:";
    FillFrom(t, 5, vars, "\nAnswer:");
    FillFrom(t, 4, vars, question + "\nAnswer:");
    FillFrom(t, 3, vars, "\n\nQuestion: " + (question + "\nAnswer:"));
    FillFrom(t, 2, vars, context + ("\n\nQuestion: " + (question + "\nAnswer:")));
    FillFrom(t, 1, vars, "\n\nContext:\n" + (context + ("\n\nQuestion: " + (question + "\nAnswer:"))));
    FillFrom(t, 0, vars, history + ("\n\nContext:\n" + (context + ("\n\nQuestion: " + (question + "\nAnswer:")))));
    assert t[0..] == t;
    Fill(t, vars)
  }

  /** The summary prompt: `SUMMARY_TEMPLATE` around the text. */
  function SummaryPrompt(text: string): (r: Result<string>)
    ensures r == Ok("\nSummarize this in 3-5 bullet points:\n\n" + text + "\n")
  {
    var vars := map["text" := text];
    var t := SummaryTemplate;
    assert t[3..] == [];
    FillFrom(t, 2, vars, "");
    assert PieceText(t[2], vars) + ("") == "\n";
    FillFrom(t, 1, vars, "\n");
    assert PieceText(t[1], vars) + ("\n") == text + "\n";
    FillFrom(t, 0, vars, text + "\n");
    assert PieceText(t[0], vars) + (text + "\n") == "\nSummarize this in 3-5 bullet points:\n\n" + text + "\n";
    assert t[0..] == t;
    Fill(t, vars)
  }

  /** The translation prompt: `TRANSLATION_TEMPLATE` with the language, then the text. */
  function TranslationPrompt(text: string, targetLanguage: string): (r: Result<string>)
    ensures r == Ok("\nTranslate this to " + targetLanguage + ":\n\n" + text + "\n")
  {
    var vars := map["text" := text, "target_language" := targetLanguage];
    var t := TranslationTemplate;
    assert t[5..] == [];
    FillFrom(t, 4, vars, "");
    assert PieceText(t[4], vars) + ("") == "\n";
    FillFrom(t, 3, vars, "\n");
    assert PieceText(t[3], vars) + ("\n") == text + "\n";
    FillFrom(t, 2, vars, text + "\n");
    assert PieceText(t[2], vars) + (text + "\n") == ":\n\n" + text + "\n";
    FillFrom(t, 1, vars, ":\n\n" + text + "\n");
    assert PieceText(t[1], vars) + (":\n\n" + text + "\n") == targetLanguage + ":\n\n" + text + "\n";
    FillFrom(t, 0, vars, targetLanguage + ":\n\n" + text + "\n");
    assert PieceText(t[0], vars) + (targetLanguage + ":\n\n" + text + "\n") == "\nTranslate this to " + targetLanguage + ":\n\n" + text + "\n";
    assert t[0..] == t;
    Fill(t, vars)
  }

  /** `answer_question`: the history is read from memory before anything is saved, the model is
      asked once, and only an answer that came back is saved, once, as the exchange
      (question, answer). The returned text is the saved answer. */
  method AnswerQuestion(question: string, documents: seq<Doc>, memory: Memory,
                        chat: string -> Result<string>, render: (seq<Exchange>, nat) -> string)
    returns (answer: Result<string>)
    modifies memory
    ensures answer == chat(QaPrompt(render(old(memory.exchanges), memory.k), Context(documents), question).value)
    ensures answer.Ok? ==> memory.exchanges == old(memory.exchanges) + [Exchange(question, answer.value)]
    ensures answer.Err? ==> memory.exchanges == old(memory.exchanges)
  {
    var context := Context(documents);
    var history := memory.History(render);
    answer := Invoke(QaPrompt(history, context, question), chat);
    if answer.Ok? {
      memory.SaveContext(question, answer.value);
    }
  }

  /** `summarize_text`: one model call on the summary prompt; memory is not involved. */
  function SummarizeText(text: string, chat: string -> Result<string>): (r: Result<string>)
    ensures r == chat("\nSummarize this in 3-5 bullet points:\n\n" + text + "\n")
  {
    Invoke(SummaryPrompt(text), chat)
  }

  /** `translate_text`: one model call on the translation prompt, to Hindi unless told
      otherwise; memory is not involved. */
  function TranslateText(text: string, chat: string -> Result<string>,
                         targetLanguage: string := "Hindi"): (r: Result<string>)
    ensures r == chat("\nTranslate this to " + targetLanguage + ":\n\n" + text + "\n")
  {
    Invoke(TranslationPrompt(text, targetLanguage), chat)
  }

  /** Without a language, `translate_text` translates to Hindi. */
  lemma TranslateDefaultsToHindi(text: string, chat: string -> Result<string>)
    ensures TranslateText(text, chat) == chat("\nTranslate this to Hindi:\n\n" + text + "\n")
  {
    assert "\nTranslate this to " + "Hindi" + ":\n\n" == "\nTranslate this to Hindi:\n\n";
  }

  /** The context of one chunk is its content; each further chunk adds a blank line and its
      content at the end. */
  lemma ContextAppend(documents: seq<Doc>, d: Doc)
    ensures Context([d]) == d.content
    ensures documents != [] ==> Context(documents + [d]) == Context(documents) + "\n\n" + d.content
  {
    if documents != [] {
      assert PageContents(documents + [d]) == PageContents(documents) + [d.content];
      JoinSnoc("\n\n", PageContents(documents), d.content);
    }
  }
}
