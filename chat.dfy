/** The answer synthesizer: provider binding, request dispatch and answer post-processing
    (`ChatService` in app/services/embedding.py). */
module Chat {
  import opened Wrappers
  import opened Config
  import opened Prompt
  import Text

  const OpenAIProvider: string := "openai"
  const AnthropicProvider: string := "anthropic"
  const MaxTokens: nat := 1000
  const FallbackAnswer: string := "I couldn't generate an answer."
  const ErrorAnswerPrefix: string := "I encountered an error while processing your question: "
  const UnsupportedProviderPrefix: string := "Unsupported AI provider: "

  predicate IsSupportedProvider(provider: string)
  {
    provider == OpenAIProvider || provider == AnthropicProvider
  }

  /** The client and chat model a provider name selects. */
  datatype Binding = Binding(client: Client, model: string)

  /** Provider selection: `openai` and `anthropic` bind their own client and chat model,
      anything else is the configuration error naming the value. */
  function BindProvider(settings: Settings): (r: Result<Binding, string>)
    ensures r.Success? <==> IsSupportedProvider(settings.aiProvider)
    ensures r.Failure? ==> r.error == UnsupportedProviderPrefix + settings.aiProvider
    ensures settings.aiProvider == OpenAIProvider
      ==> r == Success(Binding(OpenAIClient(settings.openaiApiKey), settings.openaiChatModel))
    ensures settings.aiProvider == AnthropicProvider
      ==> r == Success(Binding(AnthropicClient(settings.anthropicApiKey), settings.anthropicChatModel))
  {
    if settings.aiProvider == OpenAIProvider then
      Success(Binding(OpenAIClient(settings.openaiApiKey), settings.openaiChatModel))
    else if settings.aiProvider == AnthropicProvider then
      Success(Binding(AnthropicClient(settings.anthropicApiKey), settings.anthropicChatModel))
    else
      Failure(UnsupportedProviderPrefix + settings.aiProvider)
  }

  datatype Role = System | User
  datatype Message = Message(role: Role, content: string)

  /** The two vendor request shapes: OpenAI puts the system instruction among the messages,
      Anthropic passes it as its own parameter. */
  datatype ChatRequest =
    | OpenAIChat(model: string, messages: seq<Message>, temperature: real, maxTokens: nat)
    | AnthropicMessages(model: string, maxTokens: nat, temperature: real, system: string, messages: seq<Message>)

  /** What a vendor call comes back with: an answer that may be absent, or the raised error's text. */
  datatype VendorOutcome = Ok(answer: Option<string>) | Err(message: string)

  /** The remote chat call made through a client. */
  type ChatVendor = (Client, ChatRequest) -> VendorOutcome

  /** The system instruction a request carries, whichever shape it has. */
  function SystemTextOf(r: ChatRequest): Option<string>
  {
    match r
    case OpenAIChat(_, messages, _, _) =>
      if |messages| > 0 && messages[0].role == System then Some(messages[0].content) else None
    case AnthropicMessages(_, _, _, system, _) => Some(system)
  }

  /** The user turn a request carries: its last message, when that is a user message. */
  function UserTextOf(r: ChatRequest): Option<string>
  {
    var messages := r.messages;
    if |messages| > 0 && messages[|messages| - 1].role == User then Some(messages[|messages| - 1].content) else None
  }

  /** Dispatch on the bound provider: the vendor-specific request for one system and one user text. */
  function BuildRequest(provider: string, model: string, temperature: real, userPrompt: string): (r: ChatRequest)
    requires IsSupportedProvider(provider)
    ensures r.OpenAIChat? <==> provider == OpenAIProvider
    ensures r.OpenAIChat? ==> |r.messages| == 2 && r.messages[0].role == System && r.messages[1].role == User
    ensures r.AnthropicMessages? ==> |r.messages| == 1 && r.messages[0].role == User
    ensures SystemTextOf(r) == Some(SystemPrompt) && UserTextOf(r) == Some(userPrompt)
    ensures r.model == model && r.temperature == temperature && r.maxTokens == MaxTokens
  {
    if provider == OpenAIProvider then
      OpenAIChat(model, [Message(System, SystemPrompt), Message(User, userPrompt)], temperature, MaxTokens)
    else
      AnthropicMessages(model, MaxTokens, temperature, SystemPrompt, [Message(User, userPrompt)])
  }

  /** Whichever provider is bound, the vendor receives the same system text, user text, model,
      temperature and output bound; only the request shape differs. */
  lemma RequestsAgreeAcrossProviders(model: string, temperature: real, userPrompt: string)
    ensures var o := BuildRequest(OpenAIProvider, model, temperature, userPrompt);
      var a := BuildRequest(AnthropicProvider, model, temperature, userPrompt);
      && SystemTextOf(o) == SystemTextOf(a) && UserTextOf(o) == UserTextOf(a)
      && o.model == a.model && o.temperature == a.temperature && o.maxTokens == a.maxTokens
      && (forall m :: m in a.messages ==> m.role != System)
  {
  }

  /** `answer or "I couldn't generate an answer."`: an absent or empty answer becomes the fallback. */
  function AnswerOrFallback(answer: Option<string>): (r: string)
    ensures r != ""
    ensures answer.Some? && answer.value != "" ==> r == answer.value
    ensures answer.None? || answer.value == "" ==> r == FallbackAnswer
  {
    if answer.Some? && answer.value != "" then answer.value else FallbackAnswer
  }

  /** The error answer that replaces a raised exception. */
  function ErrorAnswer(message: string): (r: string)
    ensures |r| == |ErrorAnswerPrefix| + |message|
    ensures r[..|ErrorAnswerPrefix|] == ErrorAnswerPrefix && r[|ErrorAnswerPrefix|..] == message
  {
    ErrorAnswerPrefix + message
  }

  /** The answer for a vendor outcome: a string in every case, never empty. */
  function Respond(outcome: VendorOutcome): (r: string)
    ensures r != ""
  {
    match outcome
    case Ok(answer) => AnswerOrFallback(answer)
    case Err(message) => ErrorAnswer(message)
  }

  /** Post-processing is idempotent: an answer fed back as a vendor answer comes out unchanged. */
  lemma RespondIdempotent(outcome: VendorOutcome)
    ensures Respond(Ok(Some(Respond(outcome)))) == Respond(outcome)
  {
  }

  /** The synthesizer bound to one provider; the binding is fixed at construction. */
  class ChatService {
    const settings: Settings
    const provider: string
    const client: Client
    const model: string

    /** The provider is one of the two supported ones, and client and model are the ones it selects. */
    ghost predicate Valid()
      reads this
    {
      && IsSupportedProvider(provider)
      && provider == settings.aiProvider
      && BindProvider(settings) == Success(Binding(client, model))
    }

    /** Binds the client and model of a supported provider; `Create` checks support first. */
    constructor (settings: Settings)
      requires IsSupportedProvider(settings.aiProvider)
      ensures Valid() && this.settings == settings
    {
      this.settings := settings;
      provider := settings.aiProvider;
      if settings.aiProvider == OpenAIProvider {
        client := OpenAIClient(settings.openaiApiKey);
        model := settings.openaiChatModel;
      } else {
        client := AnthropicClient(settings.anthropicApiKey);
        model := settings.anthropicChatModel;
      }
    }

    /** Construction: an unsupported provider fails with the configuration error and binds nothing;
        a supported one yields a service bound as `BindProvider` says. */
    static method Create(settings: Settings) returns (r: Result<ChatService, string>)
      ensures r.Failure? <==> !IsSupportedProvider(settings.aiProvider)
      ensures r.Failure? ==> r.error == UnsupportedProviderPrefix + settings.aiProvider
      ensures r.Success? ==> fresh(r.value) && r.value.Valid() && r.value.settings == settings
      ensures r.Success? ==> r.value.provider == settings.aiProvider
      ensures r.Success? ==> BindProvider(settings) == Success(Binding(r.value.client, r.value.model))
    {
      if !IsSupportedProvider(settings.aiProvider) {
        return Failure(UnsupportedProviderPrefix + settings.aiProvider);
      }
      var service := new ChatService(settings);
      return Success(service);
    }

    /** Renders the context, builds the prompt, calls the bound vendor once and post-processes its
        outcome. `vendor` stands for the remote call through the bound client; whatever it returns, an answer string comes back. */
    method GenerateAnswer(query: string, blocks: seq<ContextBlock>, vendor: ChatVendor)
      returns (answer: string)
      requires Valid()
      ensures answer
        == Respond(vendor(client, BuildRequest(provider, model, settings.temperature, UserPrompt(query, RenderContext(blocks)))))
      ensures answer != ""
    {
      var contextParts: seq<string> := [];
      for i := 0 to |blocks|
        invariant |contextParts| == i
        invariant forall j :: 0 <= j < i ==> contextParts[j] == RenderBlock(blocks[j])
      {
        var chunkId := blocks[i].chunkId.GetOr(UnknownChunkId);
        var text := blocks[i].text.GetOr("");
        contextParts := contextParts + ["[" + chunkId + "] " + text];
      }
      assert contextParts == RenderAll(blocks);
      var context := Text.Join(contextParts, BlockSeparator);
      var userPrompt := UserPrompt(query, context);
      var request := BuildRequest(provider, model, settings.temperature, userPrompt);
      answer := Respond(vendor(client, request));
    }
  }
}
