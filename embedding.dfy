/** The embedding generator (`EmbeddingService` in app/services/embedding.py): one batched vendor
    call per request; vectors are opaque values of type `V`, only their count and order matter. */
module Embedding {
  import opened Wrappers
  import opened Config

  /** Python's message for indexing an empty list. */
  const IndexErrorMessage: string := "list index out of range"

  /** The embedding request: model and the texts, in order. */
  datatype EmbeddingRequest = EmbeddingRequest(model: string, input: seq<string>)

  datatype EmbeddingItem<V> = EmbeddingItem(embedding: V)

  /** The vendor response: one item per embedded text, as the vendor sends them. */
  datatype EmbeddingResponse<V> = EmbeddingResponse(data: seq<EmbeddingItem<V>>)

  /** `[item.embedding for item in response.data]`: one vector per item, in item order. */
  function Embeddings<V>(data: seq<EmbeddingItem<V>>): (vectors: seq<V>)
    ensures |vectors| == |data|
    ensures forall i :: 0 <= i < |data| ==> vectors[i] == data[i].embedding
  {
    if |data| == 0 then [] else [data[0].embedding] + Embeddings(data[1..])
  }

  /** The remote embedding call made through a client: its response, or the raised error's text. */
  type EmbeddingVendor<V> = (Client, EmbeddingRequest) -> Result<EmbeddingResponse<V>, string>

  /** What `embed_texts` produces for a client, a model, the texts and the vendor call: the vendor's
      failure text unchanged, or one vector per response item, in item order. */
  function EmbedTextsResult<V>(client: Client, model: string, texts: seq<string>, vendor: EmbeddingVendor<V>)
    : (r: Result<seq<V>, string>)
    ensures vendor(client, EmbeddingRequest(model, texts)).Failure?
      ==> r == Failure(vendor(client, EmbeddingRequest(model, texts)).error)
    ensures vendor(client, EmbeddingRequest(model, texts)).Success? ==> r.Success?
    ensures r.Success? ==> var data := vendor(client, EmbeddingRequest(model, texts)).value.data;
      |r.value| == |data| && forall i :: 0 <= i < |data| ==> r.value[i] == data[i].embedding
  {
    match vendor(client, EmbeddingRequest(model, texts))
    case Failure(e) => Failure(e)
    case Success(response) => Success(Embeddings(response.data))
  }

  /** The embedding generator; its client and model are fixed at construction. */
  class EmbeddingService {
    const client: Client
    const embedModel: string

    /** Binds the OpenAI client and the configured embedding model. */
    constructor (settings: Settings)
      ensures client == OpenAIClient(settings.openaiApiKey) && embedModel == settings.openaiEmbedModel
    {
      client := OpenAIClient(settings.openaiApiKey);
      embedModel := settings.openaiEmbedModel;
    }

    /** One vendor call carrying all texts; its failure is passed on unchanged, its response turned
        into one vector per item, in order. `vendor` stands for the remote call through the bound client. */
    method EmbedTexts<V>(texts: seq<string>, vendor: EmbeddingVendor<V>)
      returns (r: Result<seq<V>, string>)
      ensures r == EmbedTextsResult(client, embedModel, texts, vendor)
    {
      var response := vendor(client, EmbeddingRequest(embedModel, texts));
      if response.Failure? {
        return Failure(response.error);
      }
      r := Success(Embeddings(response.value.data));
    }

    /** The first vector of embedding the one-element list `[query]`; a vendor failure passes through,
        and an empty response raises Python's index error. */
    method EmbedQuery<V>(query: string, vendor: EmbeddingVendor<V>)
      returns (r: Result<V, string>)
      ensures var all := EmbedTextsResult(client, embedModel, [query], vendor);
        && (all.Failure? ==> r == Failure(all.error))
        && (all.Success? && |all.value| == 0 ==> r == Failure(IndexErrorMessage))
        && (all.Success? && |all.value| > 0 ==> r == Success(all.value[0]))
      ensures var response := vendor(client, EmbeddingRequest(embedModel, [query]));
        && (response.Failure? ==> r == Failure(response.error))
        && (response.Success? && |response.value.data| == 0 ==> r == Failure(IndexErrorMessage))
        && (response.Success? && |response.value.data| > 0 ==> r == Success(response.value.data[0].embedding))
    {
      var embeddings := EmbedTexts([query], vendor);
      if embeddings.Failure? {
        return Failure(embeddings.error);
      }
      if |embeddings.value| == 0 {
        return Failure(IndexErrorMessage);
      }
      r := Success(embeddings.value[0]);
    }
  }
}
