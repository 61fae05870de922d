/** The settings the core reads (app/config.py), as an immutable value. */
module Config {
  import opened Results

  /** The `LLMProvider` enum; `Unsupported` stands for any value outside it. */
  datatype Provider = OpenAI | Gemini | Ollama | AIPipe | Unsupported(name: string)

  /** The fields of `Settings` the core consults. Temperature is left out. */
  datatype Settings = Settings(
    appSecret: string,
    githubToken: string,
    llmProvider: Provider,
    openaiApiKey: Option<string>,
    openaiModel: string,
    googleApiKey: Option<string>,
    geminiModel: string,
    aipipeToken: Option<string>,
    aipipeGeminiModel: string,
    ollamaBaseUrl: string,
    ollamaModel: string,
    llmMaxTokens: int)

  /** Python truthiness of an optional credential: neither `None` nor the empty string. */
  predicate Present(credential: Option<string>) {
    credential.Some? && credential.value != ""
  }
}
