# Ghost story generator: a Dafny model

This project models the decision logic of a single-page app that sends a short
prompt to a text-generation service and shows the story or an error. It has
three parts:

- **The generation gateway** (`generateGhostStory`, module `StoryGeneration`).
  It checks the prompt length (3 to 200 characters, untrimmed) and then the API key.
  It maps what the provider call produced into either `{story}` or
  `{error, code, retryable}`. The provider call, raced against a 25-second
  timer, becomes an input: `Completed(content)` or
  `Failed(message, status, code)`. The handler is then a total function.
  The model proves:
  - the order of its early returns;
  - the precedence of the failure classifier (timeout, 429, 401/403, 400, ≥500, network, other status, unknown);
  - that `retryable` is false exactly for `VALIDATION_ERROR`;
  - that a story is the provider's content, trimmed.
- **The prompt form** (module `StoryPromptForm`). It holds the pure validator
  (blank, then too short, then too long), the `length/200` counter, and a class
  `Form` with the two state cells `prompt` and `errorMessage`. Its methods
  `HandleSubmit` and `HandleChange` model the event handlers. The returned
  `submitted` value is the argument of the single `onSubmit` call, if there is one.
  The invariant: a message on display is always the validator's verdict on the
  current prompt.
- **The page** (module `Page`). A class `Home` holds `currentStory`,
  `isGenerating` and `error`. Its `handleSubmit` is split at the `await` into
  `Begin` and `Complete`; `GenerateNew` models `handleGenerateNew`. A ghost field
  `requests` records the argument of every action call. The invariant: story and
  error are never both set, and both are clear while a call is in flight.
  Three visibility predicates give the render conditions of the error panel,
  the loading view and the story view.

`Text` holds JavaScript's `trim` (ECMAScript WhiteSpace and LineTerminator code
points), `includes`, and decimal rendering. Trim is proved equal to its
declarative description: the unique slice surrounded only by whitespace that
neither starts nor ends with whitespace.

Two behaviours that follow from the code are stated as lemmas:
- Provider content that is whitespace only becomes `{story: ""}`, not an error. The
  page then shows no story, no error panel and no loading view.
- The page's message for a client-side exception is word for word the
  gateway's `UNKNOWN` message.

The repository's own tests expect behaviour the code does not have. The model
follows the code:
- app/__tests__/story-generation.test.tsx:108,209-245 expect a "Retry" button that
  resubmits the last prompt, and :272 a "Start Over" button. The page keeps no last
  prompt. Its only error button, "Try Again" (app/page.tsx:82-88), calls `handleGenerateNew`
  (app/page.tsx:48-51), which clears state like "Generate New Story".
- app/__tests__/story-generation.test.tsx:132,157 expect "network error" and
  "request timed out" texts for thrown exceptions. The page does not inspect
  exception text: every exception shows one fixed message (app/page.tsx:41).

## Model

| member | source | states |
|---|---|---|
| Text.Trim | convex/storyGeneration.ts:93 | the trimmed text is empty exactly when the input is all whitespace, and otherwise starts and ends with a non-whitespace character |
| Text.TrimIsTrimmed | convex/storyGeneration.ts:93 | the trim is a slice of the input with only whitespace before and after it |
| Text.TrimmedIsUnique | convex/storyGeneration.ts:93 | any slice meeting that description is the trim, so the description determines `trim` |
| Text.Contains | convex/storyGeneration.ts:145 | `includes` holds exactly when the needle occurs at some index of the text |
| Text.NatToDecimal | components/StoryPromptForm.tsx:72 | the rendering is non-empty digits without a leading zero whose decimal value is the number |
| StoryGeneration.Prepare | convex/storyGeneration.ts:21-46 | the provider is called, with the prompt unchanged, exactly when 3 ≤ length ≤ 200 and the key is non-empty; a short or long prompt gets its non-retryable VALIDATION_ERROR, a missing key the retryable "temporarily unavailable" API_ERROR |
| StoryGeneration.StoryFromContent | convex/storyGeneration.ts:83-93 | missing or empty content is the retryable API_ERROR; any other content is a story that is its trim |
| StoryGeneration.ClassifyFailure | convex/storyGeneration.ts:95-167 | every failure is well formed; TIMEOUT exactly for the timeout message; VALIDATION_ERROR exactly for status 400 without it; UNKNOWN exactly when there is no truthy status and no network sign; API_ERROR otherwise |
| StoryGeneration.MapOutcome | convex/storyGeneration.ts:80-167 | the provider outcome yields a story exactly when it completed with non-empty content, and the story is that content trimmed |
| StoryGeneration.GenerateGhostStory | convex/storyGeneration.ts:19-168 | on every path `retryable` is false exactly for VALIDATION_ERROR; a story comes back exactly for a valid length, a key and non-empty content; the non-retryable failures are exactly a bad length or a provider 400 |
| StoryGeneration.LengthCheckComesFirst | convex/storyGeneration.ts:21-35 | for a length outside 3..200 neither the key nor the provider outcome changes the VALIDATION_ERROR result |
| StoryGeneration.MissingKeyComesBeforeProvider | convex/storyGeneration.ts:38-46 | with a valid length and no key the result is the "temporarily unavailable" API_ERROR, whatever the provider would have done |
| StoryGeneration.WhitespaceContentIsEmptyStory | convex/storyGeneration.ts:85-93 | whitespace-only content yields the empty story, not an error |
| StoryGeneration.TimeoutWins | convex/storyGeneration.ts:99-105 | the timeout message gives the retryable TIMEOUT whatever status or code accompanies it |
| StoryGeneration.StatusPrecedence | convex/storyGeneration.ts:108-160 | 429, then 401/403, then 400, then ≥500, then network, then any other non-zero status, each with its own message, code and retry flag |
| StoryGeneration.FetchMessageIsNetworkError | convex/storyGeneration.ts:145-151 | any message containing "fetch" and no truthy status is a network API_ERROR |
| StoryGeneration.ThrownPrimitiveIsUnknown | convex/storyGeneration.ts:163-167 | an error with no message, status or code, as a thrown string or number reads, is the retryable UNKNOWN failure |
| StoryGeneration.AuthFailureLooksLikeMissingKey | convex/storyGeneration.ts:116-124 | a 401 or 403 from the provider produces exactly the response a missing key produces |
| StoryPromptForm.ValidatePrompt | components/StoryPromptForm.tsx:17-28 | no message exactly when the trim is non-empty and 3 ≤ untrimmed length ≤ 200; the blank message exactly when the trim is empty; too short and too long exactly on non-blank values of those lengths |
| StoryPromptForm.BlankCheckComesFirst | components/StoryPromptForm.tsx:18-21 | three spaces get the blank message; "  a" is accepted |
| StoryPromptForm.AcceptedPromptPassesGatewayCheck | convex/storyGeneration.ts:21-35 | a prompt the form lets through is never rejected by the gateway's length check |
| StoryPromptForm.FormAgreesWithGatewayOnLength | convex/storyGeneration.ts:21-35 | on non-blank input the form and the gateway reject the same lengths with identical messages |
| StoryPromptForm.CounterText | components/StoryPromptForm.tsx:72 | the counter is decimal digits whose value is the prompt's length, with no leading zero (a length of 0 gives "0/200"), followed by "/200" |
| StoryPromptForm.Form.constructor | components/StoryPromptForm.tsx:14-15 | the form starts with an empty prompt and no message |
| StoryPromptForm.Form.HandleSubmit | components/StoryPromptForm.tsx:30-41 | the message becomes the validator's verdict; `onSubmit` is called once with the untrimmed prompt exactly when that verdict is null; the prompt is unchanged |
| StoryPromptForm.Form.HandleChange | components/StoryPromptForm.tsx:43-49 | the prompt becomes the new value and the message is cleared whatever it was |
| StoryPromptForm.Form.PressSubmit | components/StoryPromptForm.tsx:82-84 | while loading the disabled button submits nothing and changes nothing; otherwise it behaves as `handleSubmit` |
| StoryPromptForm.Form.EditInput | components/StoryPromptForm.tsx:55-60 | while loading the disabled input keeps its text; otherwise it behaves as `handleChange` |
| Page.Home.constructor | app/page.tsx:12-14 | the page starts with no story, no error, not generating and no action calls |
| Page.Home.Begin | app/page.tsx:20-28 | error and story are cleared, the flag is raised, and one action call with the prompt is recorded |
| Page.Home.Complete | app/page.tsx:28-44 | a story result sets the story and leaves the error clear; an error result sets its message and leaves the story clear; any exception sets the one generic message; the flag drops on every path |
| Page.Home.HandleSubmit | app/page.tsx:20-45 | one action call with the prompt; afterwards the page shows the gateway's story or its error message, or the generic message on an exception; never both |
| Page.Home.GenerateNew | app/page.tsx:48-51 | story and error are cleared; the flag and the calls made are unchanged |
| Page.Home.ErrorPanelVisible | app/page.tsx:72 | the error panel shows only for a non-empty error while not generating; in a valid state no story is held then |
| Page.Home.LoadingVisible | app/page.tsx:96 | the loading view shows exactly while generating; in a valid state story and error are both clear then |
| Page.Home.StoryVisible | components/StoryDisplay.tsx:14 | the story view shows only for a non-empty story while not generating; in a valid state no error is held then |
| Page.Home.FormDisabled | app/page.tsx:68 | the form is disabled exactly when the loading view shows |
| Page.GenerateNewTwice | app/page.tsx:48-51 | a second "Generate New" leaves the state exactly as the first left it |
| Page.AtMostOneView | app/page.tsx:72-103 | in every valid state the error panel and the story view are never both shown, and neither shows while loading |
| Page.SubmitThroughForm | app/page.tsx:68 | through the form, an idle page with a valid prompt makes exactly one action call with that prompt and ends showing the call's story, or its error, or the fixed message when the call throws; on an idle page the form then shows exactly the validator's message for the prompt; a generating page or an invalid prompt makes no call and leaves the page unchanged |
| Page.WhitespaceContentShowsNothing | components/StoryDisplay.tsx:14 | after whitespace-only provider content the page holds an empty story and shows no error panel, no loading view and no story view |
| Page.ClientErrorReadsLikeUnknownFailure | app/page.tsx:41 | the page's exception message equals the gateway's UNKNOWN message |

## Left out

- The OpenAI client, the request it sends (model name, system prompt, temperature, top-p, token limit), the 25-second timer and the race. They are external I/O and an asynchronous race. Their effect enters the model only as the `ProviderOutcome` input.
- The `process.env` lookup and all `console.error` logging: the key is an `Option<string>` parameter and logging has no effect on results.
- A thrown `undefined` or `null`: in the source, reading its `message` at convex/storyGeneration.ts:99 throws again inside the catch block, and that path is not modelled. A thrown primitive such as a string or a number has no `message`, `status` or `code`, so it is modelled as `Failed(None, None, None)`, which maps to the UNKNOWN failure. The model otherwise assumes an error object whose three fields may each be absent.
- A `status` that is not a number (JavaScript would coerce a string such as "500" in the `>=` comparison): status is `Option<int>`.
- String lengths: JavaScript counts UTF-16 code units, the model counts `char`s. The two differ only for characters outside the Basic Multilingual Plane.
- The `maxLength` attribute of the input: browser enforcement of typed length is not modelled. `HandleChange` accepts any string, as the handler does.
- React's state-update scheduling and the `useAction` hook: the state cells are class fields updated in order. The two halves of `handleSubmit` are `Begin` and `Complete`.
- Page.Home.Complete: requires `isGenerating`, because in the source the continuation only runs after the first half of the same submission. The form is disabled and the buttons are hidden while it is in flight.
- Markup, styling, the button labels and the loading animation: presentation only. The story display contributes only its render guard, as `StoryVisible`.
- Page.SubmitThroughForm: the action's result is resolved in the same step as the click. The interleaving of a second click with an in-flight call is covered by the disabled form, not by concurrency.
