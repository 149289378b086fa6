/**
 * The GoogleAI model adapter: request builders for the completion and chat
 * dialects, the adapter configuration, dialect selection, the mapping of each
 * provider response into one uniform result with usage counted in characters,
 * and the embedding call. The HTTP transport is a function parameter.
 */
module GoogleAI {
  import opened Wrappers

  /** Base of every endpoint URL. */
  const ApiURL: string := "https://us-central1-aiplatform.googleapis.com/v1/projects/"

  /** Generation model identifiers. */
  const TextBison: string := "text-bison"
  const ChatBison: string := "chat-bison"

  /** Embedding model identifier. */
  const TextEmbeddingGecko: string := "textembedding-gecko"

  /** The provider accepts at most this many stop sequences per request. */
  const MaxStopSequences: nat := 4

  /** Embedding length ceiling when the model catalogue gives no maximum. */
  const DefaultEmbedLimit: nat := 512

  /** Floating-point settings, prices and vector values: carried, never computed with. */
  type Float = real

  // ---------------------------------------------------------------------------
  // Model catalogue and options
  // ---------------------------------------------------------------------------

  datatype TextModelInfo = TextModelInfo(
    id: string,
    currency: string,
    characterIsToken: bool,
    promptTokenCostPer1K: Float,
    completionTokenCostPer1K: Float,
    maxTokens: nat,
    oneTPM: nat)

  const ModelInfo: seq<TextModelInfo> := [
    TextModelInfo(TextBison, "usd", true, 0.001, 0.001, 8192, 1),
    TextModelInfo(ChatBison, "usd", true, 0.0005, 0.0005, 4096, 1),
    TextModelInfo(TextEmbeddingGecko, "usd", true, 0.0001, 0.0001, 3072, 1)
  ]

  /** Every catalogue entry counts characters as tokens, which is why usage is a character count. */
  lemma ModelInfoCountsCharacters()
    ensures forall i :: 0 <= i < |ModelInfo| ==> ModelInfo[i].characterIsToken
    ensures forall i, j :: 0 <= i < j < |ModelInfo| ==> ModelInfo[i].id != ModelInfo[j].id
    ensures exists i :: 0 <= i < |ModelInfo| && ModelInfo[i].id == TextBison
    ensures exists i :: 0 <= i < |ModelInfo| && ModelInfo[i].id == ChatBison
    ensures exists i :: 0 <= i < |ModelInfo| && ModelInfo[i].id == TextEmbeddingGecko
  {
    assert ModelInfo[0].id == TextBison;
    assert ModelInfo[1].id == ChatBison;
    assert ModelInfo[2].id == TextEmbeddingGecko;
  }

  datatype Options = Options(
    model: string,
    embedModel: string,
    maxTokens: int,
    temperature: Float,
    topP: Float,
    topK: int)

  function DefaultOptions(): Options {
    Options(TextBison, TextEmbeddingGecko, 300, 0.45, 1.0, 40)
  }

  function CreativeOptions(): Options {
    DefaultOptions().(model := TextBison, temperature := 0.9)
  }

  function FastOptions(): Options {
    DefaultOptions().(model := TextBison, temperature := 0.45)
  }

  /** The presets differ from the defaults only in temperature; the fast preset is the default. */
  lemma PresetOptions()
    ensures DefaultOptions().model == TextBison && DefaultOptions().embedModel == TextEmbeddingGecko
    ensures DefaultOptions().maxTokens == 300 && DefaultOptions().topK == 40
    ensures CreativeOptions() == DefaultOptions().(temperature := 0.9)
    ensures FastOptions() == DefaultOptions()
  {
  }

  // ---------------------------------------------------------------------------
  // Errors, requests and responses
  // ---------------------------------------------------------------------------

  datatype Error =
    | StopSequencesExceeded    // more than four stop sequences
    | ApiKeyNotSet             // empty API key at construction
    | EmbedBatchExceeded       // more than one embedding input
    | EmbedLengthExceeded      // an embedding input longer than the limit
    | MalformedResponse        // a reply without the fields the mapper reads
    | Transport(message: string)

  datatype Parameters = Parameters(maxOutputTokens: int, temperature: Float, topP: Float, topK: int)

  /** The sampling parameters sent are the configured ones, unchanged. */
  predicate CarriesOptions(p: Parameters, opt: Options) {
    && p.maxOutputTokens == opt.maxTokens
    && p.temperature == opt.temperature
    && p.topP == opt.topP
    && p.topK == opt.topK
  }

  datatype GenerateInstance = GenerateInstance(prompt: string)
  datatype GoogleAIGenerateRequest = GoogleAIGenerateRequest(instances: seq<GenerateInstance>, parameters: Parameters)

  datatype Example = Example(input: string, output: string)
  datatype Message = Message(author: string, content: string)
  datatype ChatInstance = ChatInstance(context: string, examples: seq<Example>, messages: seq<Message>)
  datatype GoogleAIChatGenerateRequest = GoogleAIChatGenerateRequest(instances: seq<ChatInstance>, parameters: Parameters)

  datatype EmbedInstance = EmbedInstance(content: string)
  datatype GoogleAIEmbedRequest = GoogleAIEmbedRequest(instances: seq<EmbedInstance>)

  datatype TextPrediction = TextPrediction(content: string)
  datatype GoogleAIGenerateTextResponse = GoogleAIGenerateTextResponse(predictions: seq<TextPrediction>)

  datatype Candidate = Candidate(content: string)
  datatype ChatPrediction = ChatPrediction(candidates: seq<Candidate>)
  datatype GoogleAIChatGenerateResponse = GoogleAIChatGenerateResponse(predictions: seq<ChatPrediction>)

  datatype EmbedPrediction = EmbedPrediction(values: seq<Float>)
  datatype GoogleAIEmbedResponse = GoogleAIEmbedResponse(model: string, predictions: seq<EmbedPrediction>)

  /** A request body of one of the three dialects, as handed to the transport. */
  datatype Payload =
    | CompletionPayload(completion: GoogleAIGenerateRequest)
    | ChatPayload(chat: GoogleAIChatGenerateRequest)
    | EmbedPayload(embed: GoogleAIEmbedRequest)

  /** A decoded provider reply; its shape is whatever the provider sent. */
  datatype Reply =
    | TextReply(text: GoogleAIGenerateTextResponse)
    | ChatReply(chat: GoogleAIChatGenerateResponse)
    | EmbedReply(embed: GoogleAIEmbedResponse)

  /** Endpoint and credential of a call. */
  datatype API = API(url: string, key: string)

  /** The transport: a reply, or the message of the error it raised. */
  type Transport = (API, Payload) -> Result<Reply, string>

  /** The prompt configuration a caller passes to generate; only its stop sequences are read. */
  datatype AIPromptConfig = AIPromptConfig(stopSequences: seq<string>)

  datatype Usage = Usage(promptTokens: nat, completionTokens: nat, totalTokens: nat) {
    /** The total is the sum of its two parts. */
    predicate Valid() {
      totalTokens == promptTokens + completionTokens
    }
  }

  datatype TextResult = TextResult(id: string, text: string)

  datatype GenerateTextResponse = GenerateTextResponse(
    sessionID: Option<string>,
    results: seq<TextResult>,
    modelUsage: Usage)

  datatype EmbedResponse = EmbedResponse(
    sessionID: Option<string>,
    texts: seq<string>,
    embedding: seq<Float>,
    modelUsage: Usage)

  // ---------------------------------------------------------------------------
  // Request builders
  // ---------------------------------------------------------------------------

  /** Completion request: one instance holding the prompt verbatim. */
  function GenerateReq(prompt: string, opt: Options, stopSequences: seq<string>): (r: Result<GoogleAIGenerateRequest, Error>)
    ensures r.Failure? <==> |stopSequences| > MaxStopSequences
    ensures r.Failure? ==> r.error == StopSequencesExceeded
    ensures r.Success? ==> |r.value.instances| == 1 && r.value.instances[0].prompt == prompt
    ensures r.Success? ==> CarriesOptions(r.value.parameters, opt)
  {
    if |stopSequences| > MaxStopSequences then
      Failure(StopSequencesExceeded)
    else
      Success(GoogleAIGenerateRequest(
        [GenerateInstance(prompt)],
        Parameters(opt.maxTokens, opt.temperature, opt.topP, opt.topK)))
  }

  /** Chat request: one instance whose context is the prompt, with no examples and no messages. */
  function GenerateChatReq(prompt: string, opt: Options, stopSequences: seq<string>): (r: Result<GoogleAIChatGenerateRequest, Error>)
    ensures r.Failure? <==> |stopSequences| > MaxStopSequences
    ensures r.Failure? ==> r.error == StopSequencesExceeded
    ensures r.Success? ==> |r.value.instances| == 1 && r.value.instances[0].context == prompt
    ensures r.Success? ==> r.value.instances[0].examples == [] && r.value.instances[0].messages == []
    ensures r.Success? ==> CarriesOptions(r.value.parameters, opt)
  {
    if |stopSequences| > MaxStopSequences then
      Failure(StopSequencesExceeded)
    else
      Success(GoogleAIChatGenerateRequest(
        [ChatInstance(prompt, [], [])],
        Parameters(opt.maxTokens, opt.temperature, opt.topP, opt.topK)))
  }

  /** The stop sequences are only checked: the payload is the same whichever admissible list is given. */
  lemma StopSequencesNotSent(prompt: string, opt: Options, s1: seq<string>, s2: seq<string>)
    requires |s1| <= MaxStopSequences && |s2| <= MaxStopSequences
    ensures GenerateReq(prompt, opt, s1) == GenerateReq(prompt, opt, s2)
    ensures GenerateChatReq(prompt, opt, s1) == GenerateChatReq(prompt, opt, s2)
  {
  }

  // ---------------------------------------------------------------------------
  // The adapter configuration
  // ---------------------------------------------------------------------------

  /** Fields written once at construction and only read afterwards. */
  datatype GoogleAI = GoogleAI(apiKey: string, apiURL: string, options: Options)

  /** The prediction endpoint of `model` in project `projectID`. */
  function EndpointURL(projectID: string, model: string): string {
    ApiURL + projectID + "/locations/us-central1/publishers/google/models/" + model + ":predict"
  }

  /** Within one project, the endpoint determines the model. */
  lemma EndpointIdentifiesModel(projectID: string, m1: string, m2: string)
    requires EndpointURL(projectID, m1) == EndpointURL(projectID, m2)
    ensures m1 == m2
  {
    var head := ApiURL + projectID + "/locations/us-central1/publishers/google/models/";
    var u1, u2 := EndpointURL(projectID, m1), EndpointURL(projectID, m2);
    assert u1 == head + m1 + ":predict";
    assert u2 == head + m2 + ":predict";
    assert |m1| == |m2|;
    assert m1 == u1[|head|..|head| + |m1|];
    assert m2 == u2[|head|..|head| + |m2|];
  }

  /** Construction: fails exactly when the API key is empty. */
  function NewGoogleAI(apiKey: string, projectID: string, options: Options): (r: Result<GoogleAI, Error>)
    ensures r.Failure? <==> apiKey == ""
    ensures r.Failure? ==> r.error == ApiKeyNotSet
    ensures r.Success? ==> r.value.apiKey == apiKey && r.value.options == options
    ensures r.Success? ==> r.value.apiURL == EndpointURL(projectID, options.model)
  {
    if apiKey == "" then
      Failure(ApiKeyNotSet)
    else
      Success(GoogleAI(apiKey, EndpointURL(projectID, options.model), options))
  }

  /** Construction with the default options, as when no options are passed: the completion dialect. */
  function NewDefaultGoogleAI(apiKey: string, projectID: string): (r: Result<GoogleAI, Error>)
    ensures r.Failure? <==> apiKey == ""
    ensures r.Success? ==> r.value.options == DefaultOptions()
    ensures r.Success? ==> DialectOf(r.value.options.model) == Completion
    ensures r.Success? ==> r.value.apiURL == EndpointURL(projectID, TextBison)
  {
    NewGoogleAI(apiKey, projectID, DefaultOptions())
  }

  /** The endpoint and credential of every call: the stored endpoint URL and API key. */
  function CreateAPI(ai: GoogleAI): (a: API)
    ensures a.url == ai.apiURL && a.key == ai.apiKey
  {
    API(ai.apiURL, ai.apiKey)
  }

  /** Every call of a constructed adapter goes to its model's endpoint with the key it was given. */
  lemma CallsTargetConfiguredModel(apiKey: string, projectID: string, options: Options)
    requires apiKey != ""
    ensures var ai := NewGoogleAI(apiKey, projectID, options).value;
      CreateAPI(ai) == API(EndpointURL(projectID, options.model), apiKey)
  {
  }

  datatype ModelConfig = ModelConfig(maxTokens: int, temperature: Float, topP: Float, topK: int)

  /** The generation settings of the adapter, as advertised to callers. */
  function GetModelConfig(ai: GoogleAI): (c: ModelConfig)
    ensures c.maxTokens == ai.options.maxTokens && c.temperature == ai.options.temperature
    ensures c.topP == ai.options.topP && c.topK == ai.options.topK
  {
    ModelConfig(ai.options.maxTokens, ai.options.temperature, ai.options.topP, ai.options.topK)
  }

  /** What both request builders send agrees with the advertised model configuration. */
  lemma RequestsFollowModelConfig(ai: GoogleAI, prompt: string, stopSequences: seq<string>)
    requires |stopSequences| <= MaxStopSequences
    ensures var c, p := GetModelConfig(ai), GenerateReq(prompt, ai.options, stopSequences).value.parameters;
      p == Parameters(c.maxTokens, c.temperature, c.topP, c.topK)
    ensures var c, p := GetModelConfig(ai), GenerateChatReq(prompt, ai.options, stopSequences).value.parameters;
      p == Parameters(c.maxTokens, c.temperature, c.topP, c.topK)
  {
  }

  // ---------------------------------------------------------------------------
  // Usage counted in characters
  // ---------------------------------------------------------------------------

  /** Total length of `texts`, accumulated from the left as `reduce((a, v) => a + v.length, 0)`. */
  function SumLengths(texts: seq<string>): nat {
    if texts == [] then 0 else SumLengths(texts[..|texts| - 1]) + |texts[|texts| - 1]|
  }

  lemma {:induction false} SumLengthsAppend(a: seq<string>, b: seq<string>)
    ensures SumLengths(a + b) == SumLengths(a) + SumLengths(b)
    decreases |b|
  {
    if b == [] {
      assert a + b == a;
    } else {
      var b' := b[..|b| - 1];
      assert (a + b)[..|a + b| - 1] == a + b';
      SumLengthsAppend(a, b');
    }
  }

  /** Texts of a list of results. */
  function ResultTexts(results: seq<TextResult>): (texts: seq<string>)
    ensures |texts| == |results|
    ensures forall i :: 0 <= i < |results| ==> texts[i] == results[i].text
  {
    seq(|results|, i requires 0 <= i < |results| => results[i].text)
  }

  // ---------------------------------------------------------------------------
  // Completion dialect
  // ---------------------------------------------------------------------------

  function PredictionContents(predictions: seq<TextPrediction>): (texts: seq<string>)
    ensures |texts| == |predictions|
    ensures forall i :: 0 <= i < |predictions| ==> texts[i] == predictions[i].content
  {
    seq(|predictions|, i requires 0 <= i < |predictions| => predictions[i].content)
  }

  /** One result per prediction, in order; the completion count is the characters of those results. */
  function MapTextResponse(prompt: string, sessionID: Option<string>, res: GoogleAIGenerateTextResponse): (r: GenerateTextResponse)
    ensures r.sessionID == sessionID
    ensures |r.results| == |res.predictions|
    ensures forall i :: 0 <= i < |r.results| ==> r.results[i] == TextResult("", res.predictions[i].content)
    ensures r.modelUsage.Valid() && r.modelUsage.promptTokens == |prompt|
    ensures r.modelUsage.completionTokens == SumLengths(ResultTexts(r.results))
  {
    var predictions := res.predictions;
    var results := seq(|predictions|, i requires 0 <= i < |predictions| => TextResult("", predictions[i].content));
    var promptTokens := |prompt|;
    var completionTokens := SumLengths(PredictionContents(predictions));
    assert ResultTexts(results) == PredictionContents(predictions);
    GenerateTextResponse(sessionID, results, Usage(promptTokens, completionTokens, promptTokens + completionTokens))
  }

  /** Hands a payload to the transport; a transport error propagates unchanged. */
  function Dispatch(api: Transport, endpoint: API, payload: Payload): Result<Reply, Error> {
    match api(endpoint, payload)
    case Success(reply) => Success(reply)
    case Failure(message) => Failure(Transport(message))
  }

  /** Completion path: check, build, dispatch, map. */
  function GenerateDefault(ai: GoogleAI, prompt: string, md: AIPromptConfig, sessionID: Option<string>, api: Transport)
    : (r: Result<GenerateTextResponse, Error>)
    ensures |md.stopSequences| > MaxStopSequences ==> r == Failure(StopSequencesExceeded)
    ensures |md.stopSequences| <= MaxStopSequences ==>
      var reply := api(CreateAPI(ai), CompletionPayload(GenerateReq(prompt, ai.options, md.stopSequences).value));
      && (reply.Failure? ==> r == Failure(Transport(reply.error)))
      && (reply.Success? && reply.value.TextReply? ==> r == Success(MapTextResponse(prompt, sessionID, reply.value.text)))
      && (reply.Success? && !reply.value.TextReply? ==> r == Failure(MalformedResponse))
    ensures r.Success? ==> r.value.modelUsage.Valid() && r.value.modelUsage.promptTokens == |prompt|
  {
    var req :- GenerateReq(prompt, ai.options, md.stopSequences);
    var reply :- Dispatch(api, CreateAPI(ai), CompletionPayload(req));
    match reply
    case TextReply(res) => Success(MapTextResponse(prompt, sessionID, res))
    case _ => Failure(MalformedResponse)
  }

  // ---------------------------------------------------------------------------
  // Chat dialect
  // ---------------------------------------------------------------------------

  /** The chat mapper reads the first candidate of every prediction. */
  predicate EveryPredictionHasCandidate(predictions: seq<ChatPrediction>) {
    forall i :: 0 <= i < |predictions| ==> |predictions[i].candidates| > 0
  }

  function CandidateContents(p: ChatPrediction): (texts: seq<string>)
    ensures |texts| == |p.candidates|
    ensures forall j :: 0 <= j < |p.candidates| ==> texts[j] == p.candidates[j].content
  {
    seq(|p.candidates|, j requires 0 <= j < |p.candidates| => p.candidates[j].content)
  }

  /** Contents of every candidate of every prediction, flattened in order. */
  function AllCandidateContents(predictions: seq<ChatPrediction>): seq<string> {
    if predictions == [] then [] else CandidateContents(predictions[0]) + AllCandidateContents(predictions[1..])
  }

  /** Contents of the first candidate of each prediction: the texts shown to the caller. */
  function FirstCandidateContents(predictions: seq<ChatPrediction>): (texts: seq<string>)
    requires EveryPredictionHasCandidate(predictions)
    ensures |texts| == |predictions|
    ensures forall i :: 0 <= i < |predictions| ==> texts[i] == predictions[i].candidates[0].content
  {
    seq(|predictions|, i requires 0 <= i < |predictions| && EveryPredictionHasCandidate(predictions) =>
      predictions[i].candidates[0].content)
  }

  /** Contents of every candidate after the first, flattened in order: counted, never shown. */
  function LaterCandidateContents(predictions: seq<ChatPrediction>): seq<string>
    requires EveryPredictionHasCandidate(predictions)
  {
    if predictions == [] then [] else CandidateContents(predictions[0])[1..] + LaterCandidateContents(predictions[1..])
  }

  /** Counting every candidate counts the shown first candidates plus all the hidden later ones. */
  lemma {:induction false} ChatTokensSplit(predictions: seq<ChatPrediction>)
    requires EveryPredictionHasCandidate(predictions)
    ensures SumLengths(AllCandidateContents(predictions))
         == SumLengths(FirstCandidateContents(predictions)) + SumLengths(LaterCandidateContents(predictions))
  {
    if predictions != [] {
      var head, rest := predictions[0], predictions[1..];
      var cs := CandidateContents(head);
      ChatTokensSplit(rest);
      assert cs == [cs[0]] + cs[1..];
      SumLengthsAppend([cs[0]], cs[1..]);
      SumLengthsAppend(cs, AllCandidateContents(rest));
      assert FirstCandidateContents(predictions) == [cs[0]] + FirstCandidateContents(rest);
      SumLengthsAppend([cs[0]], FirstCandidateContents(rest));
      SumLengthsAppend(cs[1..], LaterCandidateContents(rest));
      assert SumLengths([cs[0]]) == |cs[0]| by {
        assert [cs[0]][..0] == [];
      }
    }
  }

  /**
   * One result per prediction, from its first candidate only; the completion count is
   * the characters of every candidate of every prediction.
   */
  function MapChatResponse(prompt: string, sessionID: Option<string>, res: GoogleAIChatGenerateResponse): (r: GenerateTextResponse)
    requires EveryPredictionHasCandidate(res.predictions)
    ensures r.sessionID == sessionID
    ensures |r.results| == |res.predictions|
    ensures forall i :: 0 <= i < |r.results| ==> r.results[i] == TextResult("", res.predictions[i].candidates[0].content)
    ensures r.modelUsage.Valid() && r.modelUsage.promptTokens == |prompt|
    ensures r.modelUsage.completionTokens
         == SumLengths(ResultTexts(r.results)) + SumLengths(LaterCandidateContents(res.predictions))
    ensures r.modelUsage.completionTokens == SumLengths(AllCandidateContents(res.predictions))
  {
    var predictions := res.predictions;
    var promptTokens := |prompt|;
    var completionTokens := SumLengths(AllCandidateContents(predictions));
    var results := seq(|predictions|, i requires 0 <= i < |predictions| => TextResult("", predictions[i].candidates[0].content));
    ChatTokensSplit(predictions);
    assert ResultTexts(results) == FirstCandidateContents(predictions);
    GenerateTextResponse(sessionID, results, Usage(promptTokens, completionTokens, promptTokens + completionTokens))
  }

  /** Chat path: check, build, dispatch, map. */
  function GenerateChat(ai: GoogleAI, prompt: string, md: AIPromptConfig, sessionID: Option<string>, api: Transport)
    : (r: Result<GenerateTextResponse, Error>)
    ensures |md.stopSequences| > MaxStopSequences ==> r == Failure(StopSequencesExceeded)
    ensures |md.stopSequences| <= MaxStopSequences ==>
      var reply := api(CreateAPI(ai), ChatPayload(GenerateChatReq(prompt, ai.options, md.stopSequences).value));
      && (reply.Failure? ==> r == Failure(Transport(reply.error)))
      && (reply.Success? && reply.value.ChatReply? && EveryPredictionHasCandidate(reply.value.chat.predictions) ==>
            r == Success(MapChatResponse(prompt, sessionID, reply.value.chat)))
      && (reply.Success? && !(reply.value.ChatReply? && EveryPredictionHasCandidate(reply.value.chat.predictions)) ==>
            r == Failure(MalformedResponse))
    ensures r.Success? ==> r.value.modelUsage.Valid() && r.value.modelUsage.promptTokens == |prompt|
  {
    var req :- GenerateChatReq(prompt, ai.options, md.stopSequences);
    var reply :- Dispatch(api, CreateAPI(ai), ChatPayload(req));
    if reply.ChatReply? && EveryPredictionHasCandidate(reply.chat.predictions) then
      Success(MapChatResponse(prompt, sessionID, reply.chat))
    else
      Failure(MalformedResponse)
  }

  // ---------------------------------------------------------------------------
  // Dialect selection
  // ---------------------------------------------------------------------------

  datatype Dialect = Completion | Chat

  /** The chat dialect serves the chat model and no other. */
  function DialectOf(model: string): (d: Dialect)
    ensures d == Chat <==> model == ChatBison
  {
    if model in [ChatBison] then Chat else Completion
  }

  /** Generation: the chat path for the chat model, the completion path for every other model. */
  function Generate(ai: GoogleAI, prompt: string, md: AIPromptConfig, sessionID: Option<string>, api: Transport)
    : (r: Result<GenerateTextResponse, Error>)
    ensures DialectOf(ai.options.model) == Chat ==> r == GenerateChat(ai, prompt, md, sessionID, api)
    ensures DialectOf(ai.options.model) == Completion ==> r == GenerateDefault(ai, prompt, md, sessionID, api)
    ensures |md.stopSequences| > MaxStopSequences ==> r == Failure(StopSequencesExceeded)
    ensures r.Success? ==> r.value.modelUsage.Valid() && r.value.modelUsage.promptTokens == |prompt|
    ensures r.Success? ==> r.value.sessionID == sessionID
  {
    if DialectOf(ai.options.model) == Chat then
      GenerateChat(ai, prompt, md, sessionID, api)
    else
      GenerateDefault(ai, prompt, md, sessionID, api)
  }

  /** Validation happens before dispatch: a rejected request never consults the transport. */
  lemma GenerateChecksBeforeDispatch(ai: GoogleAI, prompt: string, md: AIPromptConfig, sessionID: Option<string>, api1: Transport, api2: Transport)
    requires |md.stopSequences| > MaxStopSequences
    ensures Generate(ai, prompt, md, sessionID, api1) == Generate(ai, prompt, md, sessionID, api2)
  {
  }

  /**
   * A chat adapter asked "hello" whose provider answers one prediction with the one
   * candidate "hi there" reports that text, 5 prompt, 8 completion and 13 total tokens.
   */
  lemma ChatGreeting(ai: GoogleAI, api: Transport)
    requires ai.options.model == ChatBison
    requires api(CreateAPI(ai), ChatPayload(GenerateChatReq("hello", ai.options, []).value))
          == Success(ChatReply(GoogleAIChatGenerateResponse([ChatPrediction([Candidate("hi there")])])))
    ensures Generate(ai, "hello", AIPromptConfig([]), None, api)
         == Success(GenerateTextResponse(None, [TextResult("", "hi there")], Usage(5, 8, 13)))
  {
    var res := GoogleAIChatGenerateResponse([ChatPrediction([Candidate("hi there")])]);
    var r := MapChatResponse("hello", None, res);
    assert LaterCandidateContents(res.predictions) == [] by {
      assert res.predictions[1..] == [];
    }
    assert ResultTexts(r.results) == ["hi there"];
    assert SumLengths(["hi there"]) == 8 by {
      assert ["hi there"][..0] == [];
    }
    assert r.results == [TextResult("", "hi there")];
  }

  // ---------------------------------------------------------------------------
  // Embeddings
  // ---------------------------------------------------------------------------

  /** The input of embed: a single string or a list of strings. */
  datatype TextToEmbed = Single(text: string) | Many(texts: seq<string>)

  /** A single string becomes a one-element list. */
  function EmbedTexts(input: TextToEmbed): seq<string> {
    match input
    case Single(text) => [text]
    case Many(texts) => texts
  }

  /** The length ceiling: the model's maximum, or 512 when the catalogue gives none. */
  function EmbedLimit(modelMaxTokens: Option<nat>): nat {
    modelMaxTokens.GetOr(DefaultEmbedLimit)
  }

  /** The inputs longer than `limit`, in order. */
  function OverLimit(texts: seq<string>, limit: nat): (r: seq<string>)
    ensures |r| <= |texts|
    ensures forall s :: s in r <==> s in texts && |s| > limit
  {
    if texts == [] then []
    else (if |texts[0]| > limit then [texts[0]] else []) + OverLimit(texts[1..], limit)
  }

  /** The first element of `texts`, or `default` when there is none. */
  function FirstOr(texts: seq<string>, default: string): string {
    if texts == [] then default else texts[0]
  }

  /** The first prediction's vector, or the empty vector when there is none. */
  function FirstEmbedding(res: GoogleAIEmbedResponse): seq<Float> {
    if res.predictions == [] then [] else res.predictions[0].values
  }

  /** The embedding payload: one instance holding the first input, or the empty string. */
  function EmbedReq(texts: seq<string>): (req: GoogleAIEmbedRequest)
    ensures |req.instances| == 1
    ensures texts != [] ==> req.instances[0].content == texts[0]
    ensures texts == [] ==> req.instances[0].content == ""
  {
    GoogleAIEmbedRequest([EmbedInstance(FirstOr(texts, ""))])
  }

  function MapEmbedResponse(texts: seq<string>, sessionID: Option<string>, res: GoogleAIEmbedResponse): (r: EmbedResponse)
    ensures r.sessionID == sessionID && r.texts == texts
    ensures r.embedding == (if res.predictions == [] then [] else res.predictions[0].values)
    ensures r.modelUsage.Valid() && r.modelUsage.completionTokens == 0
    ensures r.modelUsage.promptTokens == (if texts == [] then 0 else |texts[0]|)
  {
    var promptTokens := |FirstOr(texts, "")|;
    EmbedResponse(sessionID, texts, FirstEmbedding(res), Usage(promptTokens, 0, promptTokens))
  }

  /** Embedding: both input checks run before dispatch; the batch check comes first. */
  function Embed(ai: GoogleAI, input: TextToEmbed, sessionID: Option<string>, modelMaxTokens: Option<nat>, api: Transport)
    : (r: Result<EmbedResponse, Error>)
    ensures |EmbedTexts(input)| > 1 ==> r == Failure(EmbedBatchExceeded)
    ensures |EmbedTexts(input)| <= 1 && (exists s :: s in EmbedTexts(input) && |s| > EmbedLimit(modelMaxTokens)) ==>
      r == Failure(EmbedLengthExceeded)
    ensures r.Success? ==> |EmbedTexts(input)| <= 1
    ensures r.Success? ==> forall s :: s in EmbedTexts(input) ==> |s| <= EmbedLimit(modelMaxTokens)
    ensures r.Success? ==> r.value.texts == EmbedTexts(input) && r.value.sessionID == sessionID
    ensures r.Success? ==> r.value.modelUsage.Valid() && r.value.modelUsage.completionTokens == 0
    ensures |EmbedTexts(input)| <= 1 && (forall s :: s in EmbedTexts(input) ==> |s| <= EmbedLimit(modelMaxTokens)) ==>
      var reply := api(CreateAPI(ai), EmbedPayload(EmbedReq(EmbedTexts(input))));
      && (reply.Failure? ==> r == Failure(Transport(reply.error)))
      && (reply.Success? && reply.value.EmbedReply? ==> r == Success(MapEmbedResponse(EmbedTexts(input), sessionID, reply.value.embed)))
      && (reply.Success? && !reply.value.EmbedReply? ==> r == Failure(MalformedResponse))
  {
    var texts := EmbedTexts(input);
    if |texts| > 1 then
      Failure(EmbedBatchExceeded)
    else if |OverLimit(texts, EmbedLimit(modelMaxTokens))| != 0 then
      Failure(EmbedLengthExceeded)
    else
      var reply :- Dispatch(api, CreateAPI(ai), EmbedPayload(EmbedReq(texts)));
      match reply
      case EmbedReply(res) => Success(MapEmbedResponse(texts, sessionID, res))
      case _ => Failure(MalformedResponse)
  }

  /** A single input exactly as long as the limit passes both checks; one character more is rejected. */
  lemma EmbedLimitBoundary(ai: GoogleAI, text: string, sessionID: Option<string>, modelMaxTokens: Option<nat>, api: Transport)
    ensures |text| == EmbedLimit(modelMaxTokens) ==>
      Embed(ai, Single(text), sessionID, modelMaxTokens, api) != Failure(EmbedLengthExceeded)
    ensures |text| == EmbedLimit(modelMaxTokens) + 1 ==>
      Embed(ai, Single(text), sessionID, modelMaxTokens, api) == Failure(EmbedLengthExceeded)
  {
  }
}
