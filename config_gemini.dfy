/** The alternative, Gemini-first configuration (`backend/config_gemini.py`):
    a hybrid council when both keys are set, three Gemini models with the
    Google key alone, and three free OpenRouter models otherwise. */
module ConfigGemini {
  import opened Common
  import OpenRouter

  datatype Settings = Settings(useGemini: bool, council: seq<string>, chairman: string)

  const GeminiCouncil: seq<string> := ["gemini-1.5-flash", "gemini-1.5-pro", "gemini-1.0-pro"]
  const OpenRouterCouncil: seq<string> :=
    ["meta-llama/llama-3.1-8b-instruct:free", "mistralai/mistral-7b-instruct:free", "gryphe/mythomax-l2-13b:free"]
  const HybridCouncil: seq<string> := ["openai/gpt-3.5-turbo", "gemini-1.5-flash"]
  const GeminiChairman: string := "gemini-1.5-flash"
  const OpenRouterChairman: string := "meta-llama/llama-3.1-8b-instruct:free"

  /** The module constants computed from the two keys. */
  function Configure(googleKey: Option<string>, openRouterKey: Option<string>): (s: Settings)
    ensures s.useGemini == Truthy(googleKey)
    ensures s.chairman == (if s.useGemini then GeminiChairman else OpenRouterChairman)
    ensures Truthy(googleKey) && Truthy(openRouterKey) ==> s.council == HybridCouncil
    ensures Truthy(googleKey) && !Truthy(openRouterKey) ==> s.council == GeminiCouncil
    ensures !Truthy(googleKey) ==> s.council == OpenRouterCouncil
    ensures |s.council| == (if Truthy(googleKey) && Truthy(openRouterKey) then 2 else 3)
  {
    var (council, useGemini) :=
      if Truthy(googleKey) && Truthy(openRouterKey) then (HybridCouncil, true)
      else if Truthy(googleKey) then (GeminiCouncil, true)
      else (OpenRouterCouncil, false);
    Settings(useGemini, council, if useGemini then GeminiChairman else OpenRouterChairman)
  }

  /** With the Google key set, every configured model is routed to a
      provider whose key is set; without it, every configured model is routed
      to OpenRouter, whether or not its key is set. */
  lemma ConfiguredModelsRouting(googleKey: Option<string>, openRouterKey: Option<string>)
    ensures var s := Configure(googleKey, openRouterKey);
      var models := s.council + [s.chairman];
      Truthy(googleKey) ==> forall i :: 0 <= i < |models| ==>
        (OpenRouter.Route(models[i]) == OpenRouter.OpenRouterApi ==> Truthy(openRouterKey))
    ensures var s := Configure(googleKey, openRouterKey);
      var models := s.council + [s.chairman];
      !Truthy(googleKey) ==> forall i :: 0 <= i < |models| ==> OpenRouter.Route(models[i]) == OpenRouter.OpenRouterApi
  {
    var s := Configure(googleKey, openRouterKey);
    var models := s.council + [s.chairman];
    forall i | 0 <= i < |models|
      ensures Truthy(googleKey) ==>
        (OpenRouter.Route(models[i]) == OpenRouter.OpenRouterApi ==> Truthy(openRouterKey))
      ensures !Truthy(googleKey) ==> OpenRouter.Route(models[i]) == OpenRouter.OpenRouterApi
    {
      var m := models[i];
      if Truthy(googleKey) && !Truthy(openRouterKey) {
        assert m[..7] == OpenRouter.GeminiPrefix;
      } else if !Truthy(googleKey) {
        assert m[0] != 'g' || m[1] != 'e';
      }
    }
  }
}
