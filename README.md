# AI Arena front end and model client: a Dafny model

This project is a Dafny model of the decision logic in the AI Arena
application. Two language-model agents answer a question, and a referee
model picks the better answer.

Front end:
- the history/answer client (`askQuestion`, `getHistory`, `submitLabel`), with its demo dataset and its adapter for the legacy conversation list;
- the sign-in and sign-up handlers;
- the route guard of the playground;
- the history section's fetch and panel logic;
- the account button.

Back end:
- the model client that routes a model name to Google Gemini or to OpenRouter, builds each provider's request, shapes each provider's answer, and collects several answers into one map;
- the two configuration tables that choose the council models (the competing agents) and the chairman model (the referee) from the keys that are set;
- the `.env` candidate rule;
- the configuration self-test that checks and masks the OpenRouter key.

Nothing runs a network call. Each fetch, HTTP post or SDK call is an input
to the model: the outcome the transport delivered. The clock is an input
too. Each operation returns what it sent and how it ended, so statements
like "no network call" and "no retry" are statements about its result.

Modules:
- `Common`: shared helpers.
- `Api`: `frontend/src/lib/api.ts`.
- `OpenRouter`: `backend/openrouter.py`.
- `DotEnv`: the `.env` loop, shared by `config.py` and `config_gemini.py`.
- `Config`: `config.py`.
- `ConfigGemini`: `config_gemini.py`.
- `KeyCheck`: `test_config.py`.
- `AuthFlow`: what the sign-in and sign-up pages share.
- `SignUp`, `SignIn`, `ProtectedRoute`, `HistorySection`, `AuthButton`: one module per component.

Components that keep React state are classes: `FormState`,
`HistorySectionState`, `AuthButtonState`. Their methods change the fields
step by step, and also append each step (setter call, provider call,
navigation) to a log. The log is how the model says what happens *before*
a call. Pure functions give the expected steps, and `AuthFlow.Apply`
replays steps onto a page's `(error, loading)` view.

Two behaviours of the code are worth noting:
- `getHistory` can reject. A 2xx primary body is returned from inside the `try` without `await`, so a body that fails to parse rejects the promise. Every other failure resolves to `[]`. `Api.GetHistory` states this as an if-and-only-if.
- The demo-data test is `!userId`, so an empty id also gets the demo data.

## Model

| member | source | states |
|---|---|---|
| Api.BaseUrl | frontend/src/lib/api.ts:3 | the configured base URL when it is truthy, else `http://localhost:8002` |
| Api.DummyHistory | frontend/src/lib/api.ts:6-59 | four items with turn ids 1..4 (distinct); the referee's choice equals the item's; every score is in 0..10; no human label; the first question starts with "What are the key differences between React and Vue.js" |
| Api.AdaptLegacy | frontend/src/lib/api.ts:94-107 | the output has the same length as the legacy list; item i has turn id i, the record's title if truthy else "Conversation", and the record's creation time; it names agent_a in both places, has all scores 0, an empty answer, the fixed critique and no label; so the items are consistent, have distinct ids and have in-range scores |
| Api.GetHistory | frontend/src/lib/api.ts:78-115 | no request exactly when the user id is falsy, and then the demo data; otherwise the first request is the primary GET; the legacy GET is made exactly when the primary answered non-2xx; a parsed 2xx primary body passes through unchanged; both endpoints failing, or a thrown error, give `[]`; a parsed legacy body gives the adapted list; the promise rejects exactly when the primary 2xx body fails to parse |
| Api.Strict | frontend/src/lib/api.ts:70-75 | resolves exactly on a parsed 2xx body, with that body; a non-2xx rejects with "API error: status - text" |
| Api.AskQuestion | frontend/src/lib/api.ts:61-76 | exactly one POST to /api/ask carrying the question and the user id (no retry, no fallback); resolves exactly on a parsed 2xx body, with that body; a non-2xx rejects with the status and body text |
| Api.SubmitLabel | frontend/src/lib/api.ts:117-130 | exactly one POST to /api/feedback with the turn id and label; resolves exactly on a 2xx response (the body is not read); a non-2xx rejects with the status and body text |
| Api.ApiErrorMessageInjective | frontend/src/lib/api.ts:72 | the error message determines both the HTTP status and the body text it was built from |
| Api.SubmitLabelServerError | frontend/src/lib/api.ts:126-129 | submitting label "agree" for turn 42 against a 500 response rejects with "API error: 500 - " followed by the body text |
| OpenRouter.Route | backend/Tri2/Tri2/backend/openrouter.py:155-158 | Gemini exactly when the name starts with "gemini-", OpenRouter otherwise |
| OpenRouter.UserMessages | backend/Tri2/Tri2/backend/openrouter.py:36 | the filter keeps only messages with the user role, all taken from the input |
| OpenRouter.UserMessagesAppend | backend/Tri2/Tri2/backend/openrouter.py:36 | filtering a concatenation gives the concatenation of the filtered parts (order kept) |
| OpenRouter.UserMessagesEmpty | backend/Tri2/Tri2/backend/openrouter.py:36-37 | the filter is empty exactly when no message has the user role |
| OpenRouter.TranscriptSnoc | backend/Tri2/Tri2/backend/openrouter.py:53 | appending a message adds one "role: content" line after a newline |
| OpenRouter.GeminiPrompt | backend/Tri2/Tri2/backend/openrouter.py:36-53 | when some user message exists, the prompt ends with the fixed formatting instructions |
| OpenRouter.GeminiPromptUsesLastUserMessage | backend/Tri2/Tri2/backend/openrouter.py:37-51 | with a last user message at index i, the prompt is its content followed by the instructions; every other message is ignored |
| OpenRouter.GeminiPromptWithoutUser | backend/Tri2/Tri2/backend/openrouter.py:52-53 | with no user message, the prompt is the transcript of all messages in order |
| OpenRouter.QueryGemini | backend/Tri2/Tri2/backend/openrouter.py:31-68 | there is an answer exactly when the SDK call on the built prompt returns and reading its `text` raises nothing (`hasattr` lets every exception but a missing attribute through to the `except`); the answer carries the requested model name and the response text (its string form when it has no `text` attribute) |
| OpenRouter.ChatRequest | backend/Tri2/Tri2/backend/openrouter.py:88-97 | the headers are exactly "Authorization: Bearer key" (key printed as None when unset), then the JSON content type; the payload holds the model, the messages unchanged and a limit of 1000 tokens |
| OpenRouter.QueryOpenRouter | backend/Tri2/Tri2/backend/openrouter.py:99-133 | there is an answer exactly when the response is 2xx JSON whose first choice has a message; the answer holds that message's content and reasoning details; HTTP and network errors give None |
| OpenRouter.QueryModel | backend/Tri2/Tri2/backend/openrouter.py:136-158 | the answer comes from the provider the name routes to, and there is one exactly when that provider's query gives one; a Gemini answer carries the requested name |
| OpenRouter.ResultMap | backend/Tri2/Tri2/backend/openrouter.py:184 | the keys are exactly the model names of the zipped pairs |
| OpenRouter.ResultMapLastWins | backend/Tri2/Tri2/backend/openrouter.py:184 | each model name maps to the response at its last occurrence |
| OpenRouter.QueryModelsParallel | backend/Tri2/Tri2/backend/openrouter.py:161-184 | the keys are exactly the set of requested model names |
| OpenRouter.QueryModelsParallelLastCall | backend/Tri2/Tri2/backend/openrouter.py:178-184 | the answer stored for a model is the one from its last call (duplicate names collapse) |
| DotEnv.Candidates | backend/Tri2/Tri2/backend/config.py:8-13 | three candidates: the package directory, its parent and its grandparent, each joined with ".env" |
| DotEnv.ChooseEnvSource | backend/Tri2/Tri2/backend/config.py:14-19 | the first existing candidate in listed order is loaded; the default lookup happens exactly when no candidate exists |
| Config.Configure | backend/Tri2/Tri2/backend/config.py:22-69 | each usage flag is the key's truthiness; the four rows of the council/chairman table |
| Config.ConfiguredModelsReachable | backend/Tri2/Tri2/backend/config.py:39-64 | with some key set, the council has two members, and every council member and the chairman route to a provider whose key is set |
| Config.NoKeysLeaveChairmanUnreachable | backend/Tri2/Tri2/backend/config.py:65-68 | with no key, the council is empty and the chairman "gemini-pro" routes to Gemini, although its key is not set |
| ConfigGemini.Configure | backend/Tri2/Tri2/backend/config_gemini.py:43-59 | USE_GEMINI exactly when the Google key is truthy; hybrid, Gemini-only and OpenRouter councils; the chairman follows USE_GEMINI; the council has 2 members in the hybrid case and 3 otherwise |
| ConfigGemini.ConfiguredModelsRouting | backend/Tri2/Tri2/backend/config_gemini.py:43-59 | with the Google key set, every configured model that routes to OpenRouter has its key set; without it, every configured model routes to OpenRouter |
| KeyCheck.Mask | backend/Tri2/Tri2/backend/test_config.py:33 | a key longer than 12 masks to its first 8 characters, "...", then its last 4 (15 characters); a shorter key masks to "***" |
| KeyCheck.MaskHidesTheRest | backend/Tri2/Tri2/backend/test_config.py:33 | the mask of a long key depends only on its first 8 and last 4 characters; all short keys mask alike |
| KeyCheck.CheckConfig | backend/Tri2/Tri2/backend/test_config.py:17-45 | a missing or empty key fails first; the placeholder fails next; the check passes exactly for a non-empty key other than the placeholder, and then shows the masked key |
| AuthFlow.AttemptSettles | frontend/src/pages/SignIn.tsx:15-26 | the provider is called after the error is cleared and loading is set; loading ends false; success navigates to /playground and leaves the error empty; failure shows the message or the fallback text and does not navigate |
| AuthFlow.FormState.constructor | frontend/src/pages/SignIn.tsx:10-11 | empty error, not loading, empty log |
| AuthFlow.FormState.Perform | frontend/src/pages/SignIn.tsx:17-20 | a setter changes its state variable; every step is appended to the log |
| AuthFlow.Attempt | frontend/src/pages/SignIn.tsx:15-26 | performs the attempt's steps in order; the new view is their replay from the old one |
| SignUp.EmailSignUpRules | frontend/src/pages/SignUp.tsx:29-50 | a password mismatch is checked first, then a length under 6 (exactly 6 passes); a rejected form sets only the error, calls no provider and does not navigate; an accepted form calls signUpWithEmail(email, password) with the error cleared and loading set, navigates on success, shows the message or "Failed to create account" on failure, and ends with loading false |
| SignUp.GoogleSignUpRules | frontend/src/pages/SignUp.tsx:16-27 | no validation; the same attempt, with "Failed to sign up with Google" as the fallback |
| SignUp.SignUpPage.constructor | frontend/src/pages/SignUp.tsx:8-12 | empty fields, empty error, not loading |
| SignUp.SignUpPage.EnterEmail | frontend/src/pages/SignUp.tsx:108 | the e-mail field takes the typed value |
| SignUp.SignUpPage.EnterPassword | frontend/src/pages/SignUp.tsx:126 | the password field takes the typed value |
| SignUp.SignUpPage.EnterConfirmPassword | frontend/src/pages/SignUp.tsx:144 | the confirmation field takes the typed value |
| SignUp.SignUpPage.HandleGoogleSignUp | frontend/src/pages/SignUp.tsx:16-27 | the log grows by the Google attempt's steps; the view is their replay |
| SignUp.SignUpPage.HandleEmailSignUp | frontend/src/pages/SignUp.tsx:29-50 | the log grows by the e-mail sign-up steps for the current fields; the view is their replay |
| SignIn.EmailSignInRules | frontend/src/pages/SignIn.tsx:28-40 | for any e-mail and password, signInWithEmail is called with them (no validation), after the error is cleared and loading is set; navigation only on success; "Failed to sign in" as the fallback; loading ends false |
| SignIn.GoogleSignInRules | frontend/src/pages/SignIn.tsx:15-26 | the same for the Google button, with "Failed to sign in with Google" as the fallback |
| SignIn.SignInPage.constructor | frontend/src/pages/SignIn.tsx:8-11 | empty fields, empty error, not loading |
| SignIn.SignInPage.EnterEmail | frontend/src/pages/SignIn.tsx:98 | the e-mail field takes the typed value |
| SignIn.SignInPage.EnterPassword | frontend/src/pages/SignIn.tsx:116 | the password field takes the typed value |
| SignIn.SignInPage.HandleGoogleSignIn | frontend/src/pages/SignIn.tsx:15-26 | the log grows by the Google attempt's steps; the view is their replay |
| SignIn.SignInPage.HandleEmailSignIn | frontend/src/pages/SignIn.tsx:28-40 | the log grows by the e-mail attempt's steps for the current fields; the view is their replay |
| ProtectedRoute.Guard | frontend/src/components/ProtectedRoute.tsx:9-28 | a spinner while loading, whatever the user; when not loading and nobody is signed in, a replacing redirect to /signin; otherwise the children unchanged |
| ProtectedRoute.PlaygroundNeedsUser | frontend/src/App.tsx:46-53 | the playground page is rendered exactly when loading is over and a user is signed in |
| HistorySection.HeadingPrefix | frontend/src/components/landing/HistorySection.tsx:51 | the heading prefix is "Your History & " exactly when the visitor is authenticated, else "Example " |
| HistorySection.PanelsExclusive | frontend/src/components/landing/HistorySection.tsx:85-115 | the empty state and the list never show together; both need loading over and no error; the empty state also needs a signed-in user; the spinner excludes both |
| HistorySection.AnonymousVisitorSeesExamples | frontend/src/components/landing/HistorySection.tsx:51-70 | an anonymous visitor's fetch resolves to the four demo items, so the list and the "Example debates" badge show |
| HistorySection.ErrorOnlyFromUnparsedPrimaryBody | frontend/src/components/landing/HistorySection.tsx:22-26 | the fetch rejects exactly for a signed-in user whose primary 2xx body failed to parse |
| HistorySection.HistorySectionState.constructor | frontend/src/components/landing/HistorySection.tsx:12-14 | empty history, loading, no error |
| HistorySection.HistorySectionState.FetchHistory | frontend/src/components/landing/HistorySection.tsx:19-30 | sets loading and clears the error, then calls getHistory(user?.uid); on success the history becomes the data; on rejection the fixed error is set and the history is kept; the error banner shows exactly when the fetch rejected; loading ends false |
| HistorySection.HistorySectionState.AfterRender | frontend/src/components/landing/HistorySection.tsx:32-34 | fetches on the first run and whenever user?.uid changes, and then holds the fetched list with no error, or the old list with the fixed error; otherwise changes nothing |
| AuthButton.BeforeAt | frontend/src/components/AuthButton.tsx:50 | the result is the e-mail up to, but not including, its first '@' (or the whole e-mail when it has none) |
| AuthButton.Label | frontend/src/components/AuthButton.tsx:50 | the display name when truthy, else the e-mail's part before the first '@' |
| AuthButton.LabelIsLocalPart | frontend/src/components/AuthButton.tsx:50 | for an e-mail containing '@', the e-mail is the label, then "@", then the rest |
| AuthButton.Render | frontend/src/components/AuthButton.tsx:21-57 | the sign-in button exactly when nobody is signed in; otherwise the user's label, with the dropdown shown exactly when isOpen |
| AuthButton.AuthButtonState.constructor | frontend/src/components/AuthButton.tsx:9 | the dropdown starts closed |
| AuthButton.AuthButtonState.ClickSignIn | frontend/src/components/AuthButton.tsx:24 | navigates to /signin |
| AuthButton.AuthButtonState.ClickToggle | frontend/src/components/AuthButton.tsx:35 | flips isOpen |
| AuthButton.AuthButtonState.ClickBackdrop | frontend/src/components/AuthButton.tsx:58-61 | closes the dropdown |
| AuthButton.AuthButtonState.SignOut | frontend/src/components/AuthButton.tsx:12-19 | navigates to / only when logout succeeds; a failure navigates nowhere |
| AuthButton.ToggleTwice | frontend/src/components/AuthButton.tsx:35 | two toggle clicks restore isOpen |
| AuthButton.BackdropTwice | frontend/src/components/AuthButton.tsx:58-61 | closing via the backdrop is idempotent |

## Left out

- Network, SDK and file I/O are inputs, not modelled. This covers `fetch`, httpx, the Gemini SDK, timeouts and `load_dotenv`, which reads the file and does not override variables that are already set. Provider keys are taken as the values `os.getenv` returns.
- Logging is not modelled: `console.error` and `print`, including the self-test's listing of council models.
- `asyncio.gather` concurrency is not modelled. Call i of `query_models_parallel` sees its own outcome `world(i)`; only the step from ordered results to the map is modelled.
- The clock is a parameter: `Date.now()` and `toISOString` are `Api.Clock`. The source computes the demo data's timestamps once, when the module loads, and returns the same array on every call. The model recomputes them from the clock passed to each call (one per `HistorySection.HistoryWorld`).
- `frontend/src/types/api.ts` is not part of this model. The ask response is a type parameter, the feedback label is a string, and a parsed 2xx history body is taken as a list of history items, as the TypeScript cast assumes.
- React rendering, batching and disabled buttons are not modelled. Each handler runs as one atomic step. The `disabled={loading}` buttons are not modelled. The browser's `required` and `type="email"` checks on the form inputs are not modelled either: in the browser they stop a submit with an empty field or a malformed e-mail before the handler runs, but the model calls the handlers with any strings.
- SignUp.EmailSignUpRules: counts password length in Unicode scalar values, not UTF-16 code units as JavaScript does.
- AuthButton.Label: a user with neither a display name nor an e-mail renders nothing; the model writes this as "", not `undefined`.
- Presentational components, animation and the GLSL shader are not modelled: `Features.tsx`, `Footer.tsx`, `FinalAnswerCard.tsx`, `GridScan.tsx`. They hold no decision logic.
- The routing table in `App.tsx` is modelled only for `/playground`.
- The diagnostic and live-server scripts only call remote services and print. `update_api_key.py` is interactive input plus a file write.
- The council, referee and enhancer orchestration (`backend.council`) is not part of this model.
