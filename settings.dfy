/** The configuration values the document-intelligence code reads. They come
    from the environment at start-up; here they are plain values. */
module Settings {

  /** Context windows at or below this many tokens count as limited. */
  const LIMITED_CONTEXT_TOKENS := 8192

  datatype Config = Config(
    maxContextTokens: int,      // MAX_CONTEXT_TOKENS
    modelProvider: string,      // MODEL_PROVIDER
    fallbackProvider: string,   // FALLBACK_PROVIDER
    enablePiiMasking: bool,     // ENABLE_PII_MASKING
    ollamaModel: string,        // OLLAMA_MODEL
    ollamaVisionModel: string   // OLLAMA_VISION_MODEL
  ) {
    /** The active model works within a limited context window, so documents
        are split into text chunks and extracted page by page. */
    predicate LimitedContext() {
      maxContextTokens <= LIMITED_CONTEXT_TOKENS
    }
  }

  /** The values used when the environment sets none of them. */
  const DEFAULTS := Config(8192, "ollama", "huggingface", true, "phi4:latest", "moondream:latest")
}
