/** Settings and prompt templates of `backend/config.py`. The chat model and the embedding
    model are external services; only their settings are kept, as constants. */
module Config {
  import opened Prompts

  const ChatModelName: string := "gemini-2.5-pro"
  const ChatTemperature: real := 0.4
  const EmbeddingModelName: string := "models/embedding-001"

  /** `QA_TEMPLATE`: history, then context, then the question. */
  const QaTemplate: Template := [
    Lit("\nConversation History:\n"), Slot("history"),
    Lit("\n\nContext:\n"), Slot("context"),
    Lit("\n\nQuestion: "), Slot("question"),
    Lit("\nAnswer:")
  ]

  /** `SUMMARY_TEMPLATE`. */
  const SummaryTemplate: Template := [
    Lit("\nSummarize this in 3-5 bullet points:\n\n"), Slot("text"), Lit("\n")
  ]

  /** `TRANSLATION_TEMPLATE`. */
  const TranslationTemplate: Template := [
    Lit("\nTranslate this to "), Slot("target_language"), Lit(":\n\n"), Slot("text"), Lit("\n")
  ]
}
