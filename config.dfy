/** The settings both services read at construction, and the vendor clients they bind. */
module Config {

  /** The configuration fields the services consume; the temperature is passed through untouched. */
  datatype Settings = Settings(
    aiProvider: string,
    openaiApiKey: string,
    anthropicApiKey: string,
    openaiEmbedModel: string,
    openaiChatModel: string,
    anthropicChatModel: string,
    temperature: real)

  /** A vendor client handle: only the vendor and the key it was built with are observable. */
  datatype Client = OpenAIClient(apiKey: string) | AnthropicClient(apiKey: string)
}
