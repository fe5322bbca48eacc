# CalorieAI capture-to-result pipeline, modelled in Dafny

This project models the client-side core of CalorieAI, a food-photo nutrition
app. The user takes or picks a photo on the capture screen. The photo is
posted to the analysis endpoint. On success the returned analysis is written
into a single-slot shared store and the app navigates to the result screen,
which renders the stored record. On failure the capture screen shows an error
card with one "Try Again" button.

Modules, one per component:

- `Wrappers` (`wrappers.dfy`): `Option`, which stands for JavaScript's
  `null`/`undefined`.
- `Analysis` (`analysis.dfy`): the `FoodAnalysis` record and the store
  (`Option<FoodAnalysis>`, empty at start).
- `RequestBody` (`request_body.dfy`): the JSON text of the request body,
  written the way `JSON.stringify` writes it, and a reader that inverts it.
- `CaptureFlow` (`capture_flow.dfy`): `captureImage` and `resetError`. A
  capture is one atomic step producing the ordered list of effects the code
  performs: state setters, picker launch, request, store write and route push.
  `Apply` folds these effects onto a `World`, which holds the two state flags,
  the store, the requests sent and the routes pushed. `Expected` is an
  independent case table of what a capture must achieve.
- `IndexScreen` (`index_screen.dfy`): which card the flags select, the buttons
  each card offers, and button presses as events.
- `ResultPage` (`result_page.dfy`): what the result screen renders from the
  store, plus a reader that recovers the record from a page.
- `Collapsible` (`collapsible.dfy`): the toggle automaton of a collapsible
  section.

The image picker and the HTTP exchange are inputs:

- `PickOutcome`: `Cancelled`, `Image(uri, base64)` or `PickThrew(message)`.
- `Response`: `NetThrew(message)`, `NotOk(bodyMessage?)` or
  `Ok(foodAnalysis?)`.

JavaScript's `x || fallback` on strings is modelled explicitly: the empty
string and an absent value are falsy.

## Model

| member | source | states |
|---|---|---|
| `CaptureFlow.Capture` | app/index.tsx:91-158 | `isAnalyzing` ends false unless the pick was cancelled, which leaves it unchanged. Every error set is non-empty. The error is cleared exactly on a cancel or a success. The store changes only on success, to the analysis with `image` set to the picked URI. Exactly one request is sent iff an image was picked. Exactly one push of `/result` happens iff the capture succeeds. |
| `CaptureFlow.EffectsMeetExpected` | app/index.tsx:91-158 | Performing the effects of a capture in source order gives exactly the reference outcome `Expected`, for every starting world, picker outcome and response. |
| `CaptureFlow.ExpectedKeepsPromises` | app/index.tsx:110-156 | The reference outcome keeps the flag, error, store, request and navigation promises that `Capture` states (the shared predicate `KeepsPromises`). |
| `CaptureFlow.ClearsErrorBeforePicker` | app/index.tsx:93-108 | A capture's first effect clears the error, its second opens the chosen picker, and the picker is opened only once. |
| `CaptureFlow.CancelledPickIsSilent` | app/index.tsx:94-110 | A cancelled pick clears the error and changes nothing else: no request, no store write, no navigation, and `isAnalyzing` unchanged. |
| `CaptureFlow.SuccessPublishesAnalysis` | app/index.tsx:138-141 | On an ok response with `foodAnalysis`, the store holds that record with `image` replaced by the asset URI, the flags are back to idle, and one `/result` push follows. |
| `CaptureFlow.StoreWrittenBeforeNavigation` | app/index.tsx:138-141 | Every navigation effect of a capture belongs to a successful capture, and at that point the store already holds the published record. |
| `CaptureFlow.NotOkShowsServiceMessage` | app/index.tsx:126-146 | A non-ok response shows the body's message when it is non-empty, else "Analysis failed". The request-phase fallback never replaces it. Store and navigation are untouched. |
| `CaptureFlow.MissingAnalysisIsNotFood` | app/index.tsx:132-136 | An ok response without `data.foodAnalysis` shows the not-food message. The store is left as it was: no partial write. |
| `CaptureFlow.RequestErrorMessage` | app/index.tsx:142-146 | An error thrown during the request keeps its own message. "Failed to analyze the image. Please try again." is used only when that message is empty. |
| `CaptureFlow.PickerErrorMessage` | app/index.tsx:152-156 | An error thrown by the picker keeps its own message, falling back to "Something went wrong. Please try again.". No request is sent and the store is unchanged. |
| `CaptureFlow.OneRequestCarryingTheImage` | app/index.tsx:110-124 | A capture appends one request if an image was picked and none otherwise. That request goes to `/api/analyze`, and its body text decodes to the asset's base64 with `image/jpeg`. |
| `CaptureFlow.RequestCarriesImage` | app/index.tsx:113-124 | The request is a JSON POST to `/api/analyze`. Its serialized body reads back to exactly the given base64 data and `image/jpeg`. |
| `CaptureFlow.ResetError` | app/index.tsx:87-89 | Retry sets `error` to null and keeps `isAnalyzing`. |
| `RequestBody.Escape` | app/index.tsx:116-123 | The escaped text is at least as long as the input. It has no raw control character, and every `"` in it is escaped by a preceding backslash. |
| `RequestBody.ReadEscaped` | app/index.tsx:116-123 | Reading an escaped string up to its closing quote recovers the string and leaves the text after it untouched. |
| `RequestBody.DecodeEncode` | app/index.tsx:116-123 | The serialized `{image:{inlineData:{data,mimeType}}}` body decodes back to the same data and media type, for any strings. |
| `IndexScreen.View` | app/index.tsx:167-247 | The analyzing card is shown iff `isAnalyzing`. The error card is shown iff not analyzing and the error is truthy. The idle card is shown otherwise. |
| `IndexScreen.Step` | app/index.tsx:189-245 | A press has an effect iff its button is on the card currently shown. |
| `IndexScreen.CaptureOnlyFromIdle` | app/index.tsx:206-247 | A capture can start iff the idle card is shown, so never while analyzing and never from the error card. |
| `IndexScreen.RetryOnlyClearsError` | app/index.tsx:176-205 | "Try Again" works only on the error card. It clears the error, changes nothing else, and the idle card follows. |
| `IndexScreen.StepKeepsSettled` | app/index.tsx:91-158 | A press from a settled screen leaves it settled: not analyzing, any error non-empty, any stored analysis carrying an image, and no more navigations than requests. |
| `IndexScreen.RunKeepsSettled` | app/index.tsx:91-158 | Any sequence of presses from a settled screen ends settled. |
| `IndexScreen.ReachableIsSettled` | app/index.tsx:24-25 | From the initial flags, every reachable screen is settled and never shows the analyzing card between user actions. |
| `IndexScreen.NoButtonsWhileRequestInFlight` | app/index.tsx:111-175 | From the effect that raises `isAnalyzing` until the `finally` clears it, every intermediate state shows the analyzing card, which has no buttons. So no second capture can start while a request is in flight. |
| `ResultPage.Render` | app/result.tsx:93-200 | Nothing is rendered iff the store is empty. Otherwise the page has three sections. |
| `ResultPage.NoteLines` | app/result.tsx:185-197 | One bullet line per note, in input order, each being "• " followed by the note. |
| `ResultPage.NutritionLayout` | app/result.tsx:131-183 | The nutrition tiles come in the order Calories, Protein, Carbs, Fat, Fiber, Sugar, Sodium, Cholesterol. Each carries the unit its label gets: none for calories, `mg` for sodium and cholesterol, `g` otherwise. Both portion rows are in `g`. |
| `ResultPage.ReadNoteLines` | app/result.tsx:187-194 | The notes can be read back from the bullet lines unchanged. |
| `ResultPage.ReadPageRender` | app/result.tsx:103-200 | A rendered analysis can be read back from its page unchanged, so every field is shown under its own label and unit. |
| `Collapsible.Toggle` | app/result.tsx:36-40 | A press flips `isCollapsed`. Opening targets rotation 180 and height 1, and closing targets 0 and 0, whatever the state before. |
| `Collapsible.ToggleTwice` | app/result.tsx:32-40 | Two presses restore a consistent section. |
| `Collapsible.ShownIffOpen` | app/result.tsx:46-49 | In a consistent section the content is shown iff the section is open. |
| `Collapsible.PressedParity` | app/result.tsx:32-40 | After `n` presses from mounting, the section is collapsed iff `n` is even, its targets match its flag, and its content shows iff `n` is odd. |

## Notes on behaviour

- No capture from the error card. The capture buttons are on the idle card only; the error card offers only "Try Again" (`CaptureOnlyFromIdle`).
- The result of `requestCameraPermissionsAsync` is ignored (app/index.tsx:96). Anything the picker throws ends in the outer catch with the thrown message or "Something went wrong. Please try again." (`PickerErrorMessage`).
- `captureImage` has no reentrancy guard of its own. During the request, the only protection is that the analyzing card has no buttons (`NoButtonsWhileRequestInFlight`).

## Left out

- app/_layout.tsx, header configuration and `router.dismiss`: pure navigation. Returning from the result screen is not modelled. Nothing in the model clears the store, which matches the source.
- Real I/O: the picker, `fetch`, `response.json()` and the router. They are replaced by the `PickOutcome` and `Response` inputs and the `Push` effect.
- Response bodies map onto `Response` as follows. A body that parses to a string, number, boolean or array does not throw: `data.message` and `data.data?.foodAnalysis` read `undefined`, so it is `NotOk(None)` or `Ok(None)`. A `null` body throws a `TypeError` when `data.message` or `data.data` is read, and a body that does not parse makes `response.json()` throw. Both are `NetThrew(message)` with that error's message.
- An `assets` array that is empty although the pick was not cancelled: reading `assets[0].base64` (app/index.tsx:119) would throw before any request goes out. The picker returns at least one asset whenever `canceled` is false, so `Image(uri, base64)` always stands for the first asset.
- A non-string truthy `data.message`, or a truthy `data.foodAnalysis` that is not a well-formed record: the model takes the message as an optional string and the analysis as a well-formed record.
- An asset without `base64`: `JSON.stringify` would then drop the `data` key. The model assumes the picker returns base64, which the source requests with `base64: true`.
- `RequestBody.Decode`: it accepts the escapes `JSON.stringify` writes and `\/`, but rejects `\u` surrogate escapes, so it is not a full JSON parser. It serves only as the inverse of the writer.
- Haptics, `console.error`, Lottie, gradients, reanimated springs and timings, and all styles: presentation only.
- Async interleaving: a capture is one atomic step. During the picker phase the idle card (with its buttons) stays on screen. A concurrent second capture in that window is not modelled.
- Number-to-text conversion of amounts: amounts are opaque and shown next to their unit suffix.
- Collapsible.Toggle: reads the flag as of the last render. Two presses landing before a re-render (the stale closure) are not modelled.
