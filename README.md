# Verified model of the AI provider abstraction of yt-rag

This project models `app/services/embedding.py`, the layer of a retrieval-augmented-generation
service that wraps two vendor SDKs:

- the **embedding generator** (`EmbeddingService`): one batched call to the OpenAI embeddings
  endpoint, whose response items become the returned vectors, in order; failures propagate;
- the **answer synthesizer** (`ChatService`): bound at construction to the `openai` or `anthropic`
  provider. It renders the retrieved context blocks as `[chunk_id] text` lines joined by blank lines,
  places them in a fixed user-prompt template, sends a vendor-specific request, and turns the
  outcome into an answer string. An empty answer becomes a fallback. A failure becomes an error
  string and never escapes.

The vendor calls are not modelled. Each method that calls a vendor takes it as a total function
parameter (`vendor`) from the bound client and the request it builds to the vendor's outcome. So each contract says
exactly which request the vendor received and what is made of any answer it could give.
Chat outcomes are `Ok(Option<string>) | Err(string)`. Embedding outcomes are a `Result` over a
response whose vectors have an opaque type `V`.

Modules: `Wrappers` (Option, Result), `Text` (Python's `str.join` and a first-occurrence search),
`Config` (settings and client handles), `Prompt` (context rendering and prompt texts),
`Chat` (provider binding, dispatch, post-processing, the `ChatService` class) and `Embedding`
(the `EmbeddingService` class).

## Model

| member | source | states |
|---|---|---|
| `Text.Join` | app/services/embedding.py:101 | `sep.join`: the empty string for no parts, the single part alone for one, and otherwise a text that starts with the first part |
| `Text.JoinLength` | app/services/embedding.py:101 | the joined text holds every part whole plus one separator per gap: nothing is truncated or added |
| `Text.JoinAppend` | app/services/embedding.py:101 | joining a concatenation of two non-empty lists joins each half, with one separator between them |
| `Text.JoinAt` | app/services/embedding.py:101 | part `i` appears intact at its own position: after the earlier parts joined, before the later ones |
| `Prompt.RenderBlock` | app/services/embedding.py:97-99 | a block renders as `[`, its identifier, `] `, its text, with the length being their sum |
| `Prompt.RenderBlockRoundTrip` | app/services/embedding.py:97-99 | the identifier and the text can be read back from the rendered line when the identifier holds no `]` |
| `Prompt.MissingFieldDefaults` | app/services/embedding.py:97-98 | a block without `chunk_id` renders as `[unknown] ...`; one without `text` renders with nothing after `] ` |
| `Prompt.RenderAll` | app/services/embedding.py:95-99 | one rendered line per block, in block order |
| `Prompt.RenderContext` | app/services/embedding.py:95-101 | the context is empty for no blocks, the block's line alone for one block, and otherwise starts with the first block's line |
| `Prompt.ContextLineAt` | app/services/embedding.py:95-101 | block `i`'s line appears in the context between the earlier and the later blocks' lines: order kept, no re-ranking |
| `Prompt.ContextLength` | app/services/embedding.py:95-101 | the context is every line whole plus two newline characters per gap: no truncation or dedup |
| `Prompt.ContextAppend` | app/services/embedding.py:95-101 | the context of `a + b` is the context of `a`, a blank line, and the context of `b` |
| `Prompt.UserPrompt` | app/services/embedding.py:113-118 | the user prompt is exactly `Context:\n`, the context, a blank line (`\n\n`), `Question: <query>`, a blank line and the fixed instruction, and nothing else |
| `Prompt.TwoBlockExample` | app/services/embedding.py:95-118 | blocks `a`/`T1`, `b`/`T2` give the context `[a] T1\n\n[b] T2`, and the prompt contains `Question: Q` |
| `Chat.BindProvider` | app/services/embedding.py:70-79 | binding succeeds exactly for `openai` and `anthropic`, with the matching client and chat model; any other value gives `Unsupported AI provider: <value>` |
| `Chat.ChatService.constructor` | app/services/embedding.py:70-77 | for a supported provider, binds that provider, its client and chat model as `BindProvider` says, and the settings, leaving the service `Valid`; only `Create` calls it, after checking support |
| `Chat.ChatService.Create` | app/services/embedding.py:68-81 | an unsupported provider fails with that error and builds no service; a supported one gives a fresh, valid service whose provider is one of the two |
| `Chat.BuildRequest` | app/services/embedding.py:121-141 | OpenAI gets two messages, system then user; Anthropic gets the system text as its own parameter and one user message; both get the bound model, the configured temperature and 1000 max tokens |
| `Chat.RequestsAgreeAcrossProviders` | app/services/embedding.py:121-141 | both request shapes carry the same system text, user text, model, temperature and token bound, and the Anthropic messages hold no system message |
| `Chat.AnswerOrFallback` | app/services/embedding.py:144 | an absent or empty answer becomes `I couldn't generate an answer.`, any other answer is returned unchanged; the result is never empty |
| `Chat.ErrorAnswer` | app/services/embedding.py:148 | the error answer is the fixed prefix followed by the error text, unchanged |
| `Chat.Respond` | app/services/embedding.py:120-148 | every vendor outcome, failure included, becomes a non-empty answer string |
| `Chat.RespondIdempotent` | app/services/embedding.py:144-148 | an answer fed back as a vendor answer comes out unchanged |
| `Chat.ChatService.GenerateAnswer` | app/services/embedding.py:83-148 | the answer is the post-processed outcome of the vendor call, made through the bound client, on the request for the bound provider, carrying the prompt built from the rendered context; it never fails and is never empty |
| `Embedding.Embeddings` | app/services/embedding.py:43 | one vector per response item, in item order |
| `Embedding.EmbeddingService.constructor` | app/services/embedding.py:22-25 | binds the OpenAI client with the configured key and the configured embedding model |
| `Embedding.EmbedTextsResult` | app/services/embedding.py:37-49 | the outcome of one batched call: the vendor's failure text unchanged, or one vector per response item in item order |
| `Embedding.EmbeddingService.EmbedTexts` | app/services/embedding.py:27-49 | equals `EmbedTextsResult` for the bound client and model: a vendor failure is returned unchanged; otherwise one vector per response item, in order |
| `Embedding.EmbeddingService.EmbedQuery` | app/services/embedding.py:51-62 | is `EmbedTextsResult` for `[query]` indexed at 0: its failure passes through, an empty result gives Python's index error, otherwise its first vector |

## Left out

- The vendor SDK clients and their `create` calls: they are network calls. Each becomes the `vendor` function parameter of the method that makes the call. The method passes that function the service's bound client along with the request. A client is only a handle recording its vendor and API key.
- The answer extraction of each chat provider (`response.choices[0].message.content` at app/services/embedding.py:131, `response.content[0].text` at :141) and its failures: they are part of `vendor`, whose outcome is the answer after extraction. An `IndexError` on an empty `choices` or `content` list, or an `AttributeError` on a content block that is not text, is caught by the `except` at :146-148. It reaches the model as `Err(...)`, so an empty list ends as `ErrorAnswer("list index out of range")`.
- The failure of the client constructors themselves (`openai.OpenAI(...)` and `anthropic.Anthropic(...)` raising, for instance on a missing API key): not modelled. Here both service constructors always succeed once the provider is supported.
- Logging (`logger.info`, `logger.error`): a side effect with no behaviour to model.
- `async`/`await`: each operation makes a single call with no concurrency, so the methods are sequential.
- Vector contents and the temperature: vectors are values of an opaque type `V`, and the temperature is a `real` that is only passed through.
- Settings loading (`get_settings`) and the module-level service instances: the settings are passed to the constructors explicitly.
- Python formatting of non-string identifiers (an integer `chunk_id`, a present-but-`None` value rendering as `None`): both fields are `Option<string>`.
- Exceptions raised while rendering the context: the source renders the context before its `try` block, so such an exception would escape `generate_answer`. With typed blocks rendering cannot fail, so the model has no such path. This follows the code.
- `generate_answer` on a provider other than the two: the source would hit an unbound `answer` and return the error string. The class invariant `ChatService.Valid`, established by `Create`, rules this case out, so it is not modelled.
- Embedding.EmbeddingService.EmbedTexts: does not promise one vector per input text. That holds only when the vendor honours its contract of one item per input. The source does not check it either.
