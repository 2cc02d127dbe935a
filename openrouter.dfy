/** The model client of the back end (`backend/openrouter.py`): routing a model
    name to Google Gemini or to OpenRouter, building the Gemini prompt and the
    OpenRouter request, shaping each provider's answer, and collecting the
    answers of several models into one map. The provider SDK and the HTTP
    client are inputs: functions from what is sent to what comes back. */
module OpenRouter {
  import opened Common

  datatype Message = Message(role: string, content: string)

  datatype Provider = Gemini | OpenRouterApi

  const GeminiPrefix: string := "gemini-"

  const MaxTokens: nat := 1000

  /** The formatting instructions appended to the last user message. */
  const FormatSuffix: string :=
    "\n\nPlease provide a well-structured response with:\n" +
    "- Clear paragraphs separated by blank lines\n" +
    "- Proper headings using markdown (## for main sections)\n" +
    "- Bullet points or numbered lists where appropriate\n" +
    "- Code blocks with ``` if showing code\n" +
    "- Proper spacing for readability\n" +
    "\n" +
    "Format your response in clean, readable markdown."

  /** `query_model`'s dispatch rule: Gemini exactly for names starting with
      "gemini-", OpenRouter for every other name. */
  function Route(model: string): (p: Provider)
    ensures p == Gemini <==> StartsWith(model, GeminiPrefix)
    ensures p == OpenRouterApi <==> !StartsWith(model, GeminiPrefix)
  {
    if StartsWith(model, GeminiPrefix) then Gemini else OpenRouterApi
  }

  // ---------------------------------------------------------------------------
  // The Gemini prompt

  /** `[m for m in messages if m['role'] == 'user']`. */
  function UserMessages(ms: seq<Message>): (r: seq<Message>)
    ensures |r| <= |ms|
    ensures forall i :: 0 <= i < |r| ==> r[i].role == "user" && r[i] in ms
  {
    if ms == [] then []
    else (if ms[0].role == "user" then [ms[0]] else []) + UserMessages(ms[1..])
  }

  lemma {:induction false} UserMessagesAppend(a: seq<Message>, b: seq<Message>)
    ensures UserMessages(a + b) == UserMessages(a) + UserMessages(b)
  {
    if a == [] {
      assert a + b == b;
    } else {
      assert (a + b)[0] == a[0];
      assert (a + b)[1..] == a[1..] + b;
      UserMessagesAppend(a[1..], b);
    }
  }

  /** The filter is empty exactly when no message has the user role. */
  lemma {:induction false} UserMessagesEmpty(ms: seq<Message>)
    ensures UserMessages(ms) == [] <==> forall i :: 0 <= i < |ms| ==> ms[i].role != "user"
  {
    if ms != [] {
      UserMessagesEmpty(ms[1..]);
      assert forall i :: 1 <= i < |ms| ==> ms[i] == ms[1..][i - 1];
    }
  }

  function Line(m: Message): string {
    m.role + ": " + m.content
  }

  /** `"\n".join(f"{m['role']}: {m['content']}" for m in messages)`. */
  function Transcript(ms: seq<Message>): string {
    if ms == [] then ""
    else if |ms| == 1 then Line(ms[0])
    else Line(ms[0]) + "\n" + Transcript(ms[1..])
  }

  /** Appending a message to a non-empty list adds one line to the transcript. */
  lemma {:induction false} TranscriptSnoc(ms: seq<Message>, m: Message)
    requires ms != []
    ensures Transcript(ms + [m]) == Transcript(ms) + "\n" + Line(m)
  {
    assert (ms + [m])[0] == ms[0];
    if |ms| > 1 {
      assert (ms + [m])[1..] == ms[1..] + [m];
      TranscriptSnoc(ms[1..], m);
    } else {
      assert (ms + [m])[1..] == [m];
    }
  }

  /** The prompt `query_gemini_model` sends: the last user message followed by
      the formatting instructions or, with no user message, the transcript. */
  function GeminiPrompt(ms: seq<Message>): (r: string)
    ensures UserMessages(ms) != [] ==> |r| >= |FormatSuffix| && r[|r| - |FormatSuffix|..] == FormatSuffix
  {
    var us := UserMessages(ms);
    if us != [] then us[|us| - 1].content + FormatSuffix else Transcript(ms)
  }

  /** With a user message at index `i` and none after it, the prompt is that
      message's content and the suffix; every other message is ignored. */
  lemma GeminiPromptUsesLastUserMessage(ms: seq<Message>, i: nat)
    requires i < |ms| && ms[i].role == "user"
    requires forall j :: i < j < |ms| ==> ms[j].role != "user"
    ensures GeminiPrompt(ms) == ms[i].content + FormatSuffix
  {
    var tail := ms[i + 1..];
    assert ms == ms[..i] + [ms[i]] + tail;
    UserMessagesAppend(ms[..i] + [ms[i]], tail);
    UserMessagesAppend(ms[..i], [ms[i]]);
    assert UserMessages([ms[i]]) == [ms[i]] by {
      assert [ms[i]][1..] == [];
    }
    assert forall j :: 0 <= j < |tail| ==> tail[j].role != "user" by {
      forall j | 0 <= j < |tail| ensures tail[j].role != "user" {
        assert tail[j] == ms[i + 1 + j];
      }
    }
    UserMessagesEmpty(tail);
  }

  /** With no user message, the prompt is the whole transcript in order. */
  lemma GeminiPromptWithoutUser(ms: seq<Message>)
    requires forall i :: 0 <= i < |ms| ==> ms[i].role != "user"
    ensures GeminiPrompt(ms) == Transcript(ms)
  {
    UserMessagesEmpty(ms);
    assert UserMessages(ms) == [];
  }

  // ---------------------------------------------------------------------------
  // Provider answers

  /** Reading `response.text`: the property yields a string, the response
      has no such attribute (`hasattr` is false), or the property raises some
      other exception, which `hasattr` lets through. */
  datatype TextAttribute = HasText(value: string) | NoTextAttribute | TextRaised(reason: string)

  /** What `generate_content` returned: how reading its `text` ends, and its
      `str()` rendering. */
  datatype GenerateResponse = GenerateResponse(text: TextAttribute, rendering: string)

  /** A call into the Gemini SDK either returns or raises. */
  datatype GeminiCall = Generated(response: GenerateResponse) | GeminiRaised(reason: string)

  /** The call returned and its text could be read without an exception. */
  predicate GeminiAnswered(c: GeminiCall) {
    c.Generated? && !c.response.text.TextRaised?
  }

  /** The answer dictionaries: Gemini's `{content, model}` and OpenRouter's
      `{content, reasoning_details}` (both read with `.get`, so either may be
      absent). */
  datatype Reply =
    | GeminiReply(content: string, model: string)
    | ChatReply(messageContent: Option<string>, reasoningDetails: Option<string>)

  datatype Header = Header(name: string, value: string)

  datatype ChatPayload = ChatPayload(model: string, messages: seq<Message>, maxTokens: nat)

  /** `choices[0]['message']` of a completion, with the two fields read. */
  datatype ApiMessage = ApiMessage(content: Option<string>, reasoningDetails: Option<string>)

  /** A decoded completion body: `choices` may be missing, and each choice
      may lack its `message`. */
  datatype Completion = Completion(choices: Option<seq<Option<ApiMessage>>>)

  /** What the HTTP POST delivered: a response with its status and its body
      (None when the body is not JSON), or a transport error. */
  datatype PostOutcome = Responded(status: nat, body: Option<Completion>) | RequestFailed(reason: string)

  /** Everything a query depends on outside this file: the configured
      OpenRouter key, the Gemini SDK (model name and prompt to outcome) and the
      HTTP client (headers and payload to outcome). */
  datatype Backends = Backends(
    openRouterKey: Option<string>,
    gemini: (string, string) -> GeminiCall,
    post: (seq<Header>, ChatPayload) -> PostOutcome)

  /** `query_gemini_model`: the answer carries the requested model name and
      the response text (its `str()` when it has no text attribute); an
      exception from the SDK call or from reading the text gives None. */
  function QueryGemini(model: string, ms: seq<Message>, sdk: (string, string) -> GeminiCall): (r: Option<Reply>)
    ensures r.Some? <==> GeminiAnswered(sdk(model, GeminiPrompt(ms)))
    ensures r.Some? ==> r.value.GeminiReply? && r.value.model == model
    ensures r.Some? ==> var g := sdk(model, GeminiPrompt(ms)).response;
      r.value.content == (if g.text.HasText? then g.text.value else g.rendering)
  {
    match sdk(model, GeminiPrompt(ms))
    case GeminiRaised(_) => None
    case Generated(g) =>
      match g.text
      case HasText(t) => Some(GeminiReply(t, model))
      case NoTextAttribute => Some(GeminiReply(g.rendering, model))
      case TextRaised(_) => None
  }

  /** Python's `f"{x}"` of an optional string: a missing key prints as None. */
  function PyStr(s: Option<string>): string {
    if s.Some? then s.value else "None"
  }

  /** The headers and payload of the OpenRouter request. */
  function ChatRequest(key: Option<string>, model: string, ms: seq<Message>): (r: (seq<Header>, ChatPayload))
    ensures r.0 == [Header("Authorization", "Bearer " + PyStr(key)), Header("Content-Type", "application/json")]
    ensures key.Some? ==> r.0[0].value == "Bearer " + key.value
    ensures r.1.model == model && r.1.messages == ms && r.1.maxTokens == 1000
  {
    ([Header("Authorization", "Bearer " + PyStr(key)), Header("Content-Type", "application/json")],
     ChatPayload(model, ms, MaxTokens))
  }

  predicate IsSuccess(status: nat) {
    200 <= status < 300
  }

  /** The first choice's message of a 2xx JSON response, when there is one. */
  function FirstMessage(outcome: PostOutcome): Option<ApiMessage> {
    if outcome.Responded? && IsSuccess(outcome.status) && outcome.body.Some?
       && outcome.body.value.choices.Some? && |outcome.body.value.choices.value| > 0
    then outcome.body.value.choices.value[0]
    else None
  }

  /** `query_openrouter_model`: `content` and `reasoning_details` of
      `choices[0].message`; an HTTP status error, a network error and any other
      failure (a body that is not JSON, no choices, no message) all give None. */
  function QueryOpenRouter(model: string, ms: seq<Message>, key: Option<string>,
                           post: (seq<Header>, ChatPayload) -> PostOutcome): (r: Option<Reply>)
    ensures var outcome := post(ChatRequest(key, model, ms).0, ChatRequest(key, model, ms).1);
      && (r.Some? <==> FirstMessage(outcome).Some?)
      && (r.Some? ==> r.value == ChatReply(FirstMessage(outcome).value.content, FirstMessage(outcome).value.reasoningDetails))
    ensures var outcome := post(ChatRequest(key, model, ms).0, ChatRequest(key, model, ms).1);
      (outcome.RequestFailed? || !IsSuccess(outcome.status)) ==> r == None
  {
    var (headers, payload) := ChatRequest(key, model, ms);
    match post(headers, payload)
    case RequestFailed(_) => None
    case Responded(status, body) =>
      if !IsSuccess(status) then None
      else match body
        case None => None
        case Some(Completion(choices)) =>
          if choices.None? || |choices.value| == 0 then None
          else match choices.value[0]
            case None => None
            case Some(m) => Some(ChatReply(m.content, m.reasoningDetails))
  }

  /** `query_model`: the answer comes from the provider the name routes to. */
  function QueryModel(model: string, ms: seq<Message>, b: Backends): (r: Option<Reply>)
    ensures r.Some? ==> (r.value.GeminiReply? <==> Route(model) == Gemini)
    ensures r.Some? && r.value.GeminiReply? ==> r.value.model == model
    ensures Route(model) == Gemini ==> (r.Some? <==> GeminiAnswered(b.gemini(model, GeminiPrompt(ms))))
    ensures Route(model) == OpenRouterApi ==> (r.Some? <==>
      FirstMessage(b.post(ChatRequest(b.openRouterKey, model, ms).0, ChatRequest(b.openRouterKey, model, ms).1)).Some?)
  {
    if Route(model) == Gemini then QueryGemini(model, ms, b.gemini)
    else QueryOpenRouter(model, ms, b.openRouterKey, b.post)
  }

  // ---------------------------------------------------------------------------
  // Collecting the answers

  function Min(a: nat, b: nat): nat {
    if a <= b then a else b
  }

  /** `{model: response for model, response in zip(models, responses)}`:
      pairs are taken in order and a later pair overwrites an earlier one. */
  function ResultMap<V>(models: seq<string>, responses: seq<V>): (m: map<string, V>)
    ensures m.Keys == set i | 0 <= i < Min(|models|, |responses|) :: models[i]
    decreases |models|
  {
    var n := Min(|models|, |responses|);
    if n == 0 then map[]
    else ResultMap(models[..n - 1], responses[..n - 1])[models[n - 1] := responses[n - 1]]
  }

  /** Each key maps to the response at its last occurrence. */
  lemma {:induction false} ResultMapLastWins<V>(models: seq<string>, responses: seq<V>, i: nat)
    requires i < |models| && |models| == |responses|
    requires forall j :: i < j < |models| ==> models[j] != models[i]
    ensures models[i] in ResultMap(models, responses)
    ensures ResultMap(models, responses)[models[i]] == responses[i]
    decreases |models|
  {
    var n := |models|;
    if i < n - 1 {
      ResultMapLastWins(models[..n - 1], responses[..n - 1], i);
    }
  }

  /** `query_models_parallel`: call `i` is made in the world `world(i)` (the
      calls run concurrently and each sees its own provider outcome); the
      answers are keyed by model name. */
  function QueryModelsParallel(models: seq<string>, ms: seq<Message>, world: nat -> Backends): (m: map<string, Option<Reply>>)
    ensures m.Keys == set i | 0 <= i < |models| :: models[i]
  {
    ResultMap(models, seq(|models|, i requires 0 <= i < |models| => QueryModel(models[i], ms, world(i))))
  }

  /** The answer stored for a model is that of its last call. */
  lemma QueryModelsParallelLastCall(models: seq<string>, ms: seq<Message>, world: nat -> Backends, i: nat)
    requires i < |models|
    requires forall j :: i < j < |models| ==> models[j] != models[i]
    ensures QueryModelsParallel(models, ms, world)[models[i]] == QueryModel(models[i], ms, world(i))
  {
    var responses := seq(|models|, k requires 0 <= k < |models| => QueryModel(models[k], ms, world(k)));
    ResultMapLastWins(models, responses, i);
  }
}
