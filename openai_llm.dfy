/**
 * The chat-completion adapter (src/openai-llm.ts): the fixed allow-list of chat
 * models, the membership test on it, the request `chat` issues and the mapping
 * of the response stream to the values `chat` yields. The SDK call itself is not
 * modelled: the chunks the service delivers are an input.
 */
module OpenAILLM {
  import opened Js

  const OPENAI_CHAT_MODELS: seq<string> := [
    "o3-mini",
    "o3-mini-2025-01-31",
    "o1",
    "o1-2024-12-17",
    "o1-preview",
    "o1-preview-2024-09-12",
    "o1-mini",
    "o1-mini-2024-09-12",
    "gpt-4.5-preview",
    "gpt-4.5-preview-2025-02-27",
    "gpt-4o",
    "gpt-4o-2024-11-20",
    "gpt-4o-2024-08-06",
    "gpt-4o-2024-05-13",
    "gpt-4o-audio-preview",
    "gpt-4o-audio-preview-2024-10-01",
    "gpt-4o-audio-preview-2024-12-17",
    "gpt-4o-mini-audio-preview",
    "gpt-4o-mini-audio-preview-2024-12-17",
    "chatgpt-4o-latest",
    "gpt-4o-mini",
    "gpt-4o-mini-2024-07-18",
    "gpt-4-turbo",
    "gpt-4-turbo-2024-04-09",
    "gpt-4-0125-preview",
    "gpt-4-turbo-preview",
    "gpt-4-1106-preview",
    "gpt-4-vision-preview",
    "gpt-4",
    "gpt-4-0314",
    "gpt-4-0613",
    "gpt-4-32k",
    "gpt-4-32k-0314",
    "gpt-4-32k-0613",
    "gpt-3.5-turbo",
    "gpt-3.5-turbo-16k",
    "gpt-3.5-turbo-0301",
    "gpt-3.5-turbo-0613",
    "gpt-3.5-turbo-1106",
    "gpt-3.5-turbo-0125",
    "gpt-3.5-turbo-16k-0613"
  ]

  /** The default of `chat`'s `model` parameter. */
  const DEFAULT_CHAT_MODEL: string := "o3-mini"

  /** `isOpenAIChatModel`: `includes` on the allow-list. */
  predicate IsChatModel(model: string) {
    Includes(OPENAI_CHAT_MODELS, model)
  }

  /** A model passes exactly when it equals some entry of the allow-list. */
  lemma IsChatModelMembership(model: string)
    ensures IsChatModel(model) <==> exists i :: 0 <= i < |OPENAI_CHAT_MODELS| && OPENAI_CHAT_MODELS[i] == model
    ensures IsChatModel(model) <==> model in OPENAI_CHAT_MODELS
  {
    assert IsChatModel(model) == Includes(OPENAI_CHAT_MODELS, model);
  }

  lemma AllowListSize()
    ensures |OPENAI_CHAT_MODELS| == 41
  {
  }

  /** The default model is on the list, so the configuration default always validates. */
  lemma DefaultModelIsListed()
    ensures IsChatModel(DEFAULT_CHAT_MODEL)
  {
    assert OPENAI_CHAT_MODELS[0] == DEFAULT_CHAT_MODEL;
  }

  /** The empty string is not a chat model. */
  lemma EmptyModelRejected()
    ensures !IsChatModel("")
  {
    assert "" !in OPENAI_CHAT_MODELS;
  }

  /** The comparison is exact: a case variant of the listed "gpt-4o" is rejected. */
  lemma CaseVariantRejected()
    ensures !IsChatModel("GPT-4o")
  {
    assert "GPT-4o" !in OPENAI_CHAT_MODELS;
  }

  /** An identifier that is no model at all is rejected. */
  lemma UnknownModelRejected()
    ensures !IsChatModel("not-a-real-model")
  {
    assert "not-a-real-model" !in OPENAI_CHAT_MODELS;
  }

  /** Being a prefix of a listed id is no reason to be rejected: "o1" is listed and prefixes "o1-mini". */
  lemma ListedPrefixAccepted()
    ensures IsChatModel("o1") && IsChatModel("o1-mini") && "o1" <= "o1-mini"
  {
    assert OPENAI_CHAT_MODELS[2] == "o1";
    assert OPENAI_CHAT_MODELS[6] == "o1-mini";
  }

  datatype Role = System | Assistant | User

  datatype ChatMessage = ChatMessage(role: Role, content: string)

  datatype ChatRequest = ChatRequest(messages: seq<ChatMessage>, model: string, stream: bool)

  /**
   * The request `chat(messages, model)` sends: a streaming completion of the
   * messages, with `model` defaulting to `DEFAULT_CHAT_MODEL` when not passed.
   */
  function CompletionRequest(messages: seq<ChatMessage>, model: Option<string>): (r: ChatRequest)
    ensures r.messages == messages && r.stream
    ensures model.Some? ==> r.model == model.value
    ensures model.None? ==> r.model == DEFAULT_CHAT_MODEL && IsChatModel(r.model)
  {
    DefaultModelIsListed();
    ChatRequest(messages, if model.Some? then model.value else DEFAULT_CHAT_MODEL, true)
  }

  datatype Delta = Delta(content: Option<string>)

  datatype Choice = Choice(delta: Delta)

  datatype ChatCompletionChunk = ChatCompletionChunk(choices: seq<Choice>)

  /** What consuming `chat`'s generator produces: the yielded values, then possibly an error. */
  datatype Yielded = Yielded(values: seq<Option<string>>, error: Option<Thrown>)

  /** What reading `.delta` of `choices[0]` throws when a chunk has no choice. */
  const MISSING_CHOICE: Thrown := Thrown(true, None, None, "Cannot read properties of undefined (reading 'delta')")

  /**
   * `chat`'s loop over the delivered stream: one yielded value per chunk, in
   * stream order, namely `choices[0].delta.content` (possibly absent); a chunk
   * with no choice ends the generator with a TypeError.
   */
  function Chat(chunks: seq<ChatCompletionChunk>): (r: Yielded)
    ensures |r.values| <= |chunks|
    ensures forall i :: 0 <= i < |r.values| ==>
      chunks[i].choices != [] && r.values[i] == chunks[i].choices[0].delta.content
    ensures r.error.None? <==> forall i :: 0 <= i < |chunks| ==> chunks[i].choices != []
    ensures r.error.None? ==> |r.values| == |chunks|
    ensures r.error.Some? ==> |r.values| < |chunks| && chunks[|r.values|].choices == [] && r.error == Some(MISSING_CHOICE)
  {
    if chunks == [] then Yielded([], None)
    else if chunks[0].choices == [] then Yielded([], Some(MISSING_CHOICE))
    else
      var rest := Chat(chunks[1..]);
      Yielded([chunks[0].choices[0].delta.content] + rest.values, rest.error)
  }
}
