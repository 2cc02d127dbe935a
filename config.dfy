/** The primary configuration (`backend/config.py`): which providers are
    usable follows from which keys are set, and a decision table over those two
    flags picks the council (the competing agents) and the chairman (the
    referee model). The key values stand for `os.getenv` after the `.env`
    file was loaded. */
module Config {
  import opened Common
  import OpenRouter

  datatype Settings = Settings(useGemini: bool, useOpenRouter: bool, council: seq<string>, chairman: string)

  const OpenAiModel: string := "openai/gpt-3.5-turbo"
  const FlashLatest: string := "gemini-flash-latest"
  const Flash2: string := "gemini-2.0-flash"
  const NoKeyChairman: string := "gemini-pro"

  /** The module constants computed from the two keys. */
  function Configure(googleKey: Option<string>, openRouterKey: Option<string>): (s: Settings)
    ensures s.useGemini == Truthy(googleKey) && s.useOpenRouter == Truthy(openRouterKey)
    ensures s.useGemini && s.useOpenRouter ==> s.council == [OpenAiModel, FlashLatest] && s.chairman == FlashLatest
    ensures !s.useGemini && s.useOpenRouter ==> s.council == [OpenAiModel, OpenAiModel] && s.chairman == OpenAiModel
    ensures s.useGemini && !s.useOpenRouter ==> s.council == [Flash2, Flash2] && s.chairman == Flash2
    ensures !s.useGemini && !s.useOpenRouter ==> s.council == [] && s.chairman == NoKeyChairman
  {
    var useGemini := Truthy(googleKey);
    var useOpenRouter := Truthy(openRouterKey);
    if useGemini && useOpenRouter then Settings(useGemini, useOpenRouter, [OpenAiModel, FlashLatest], FlashLatest)
    else if useOpenRouter then Settings(useGemini, useOpenRouter, [OpenAiModel, OpenAiModel], OpenAiModel)
    else if useGemini then Settings(useGemini, useOpenRouter, [Flash2, Flash2], Flash2)
    else Settings(useGemini, useOpenRouter, [], NoKeyChairman)
  }

  /** The provider a model name is routed to has its key set. */
  predicate Reachable(s: Settings, model: string) {
    match OpenRouter.Route(model)
    case Gemini => s.useGemini
    case OpenRouterApi => s.useOpenRouter
  }

  /** With at least one key set the council has two members, and every council
      member and the chairman are routed to a provider whose key is set. */
  lemma ConfiguredModelsReachable(googleKey: Option<string>, openRouterKey: Option<string>)
    requires Truthy(googleKey) || Truthy(openRouterKey)
    ensures var s := Configure(googleKey, openRouterKey);
      && |s.council| == 2
      && Reachable(s, s.chairman)
      && forall i :: 0 <= i < |s.council| ==> Reachable(s, s.council[i])
  {
    assert OpenAiModel[..7] != OpenRouter.GeminiPrefix by { assert OpenAiModel[0] == 'o'; }
    assert FlashLatest[..7] == OpenRouter.GeminiPrefix;
    assert Flash2[..7] == OpenRouter.GeminiPrefix;
  }

  /** With no key the council is empty and the chairman names a Gemini model
      although the Gemini key is missing. */
  lemma NoKeysLeaveChairmanUnreachable(googleKey: Option<string>, openRouterKey: Option<string>)
    requires !Truthy(googleKey) && !Truthy(openRouterKey)
    ensures var s := Configure(googleKey, openRouterKey);
      s.council == [] && OpenRouter.Route(s.chairman) == OpenRouter.Gemini && !Reachable(s, s.chairman)
  {
    assert NoKeyChairman[..7] == OpenRouter.GeminiPrefix;
  }
}
