# Nano Banana X: the generation sessions and the API client

Nano Banana X is a browser front end for an image-generation API. A user types an
"X key" (`sk-` followed by 48 characters) and a prompt. They may stage a
reference image, and they choose an aspect ratio and a model. With no image
staged the page asks for text-to-image (`generateImage`); with one staged it
asks for image-to-image (`editImage`). A case overlay reuses a fixed prompt and
only does image-to-image.

This project models, and proves properties of, three pieces:

- `image_generator.dfy` (module `ImageGen`) models the main widget
  (`src/components/ImageGenerator.tsx`). `Generator` is a class holding the
  component's state variables and `localStorage` as a map. Each handler is a
  method proved to perform a pure transition on `State`, and to keep the
  invariant that `isValidKey` agrees with the key and that the aspect ratio
  and model stay within their choice sets. Key saves go through `setApiKey`
  exactly as written (`Api.Client.SetApiKeyAsWritten`), so the client's
  headers evolve as they do in the code. Lemmas about the transitions state:
  - the order of the submit guards;
  - what a refused submission leaves alone;
  - that the text-to-image and image-to-image modes exclude each other;
  - that clearing is idempotent;
  - that a saved key is found again on reload.
- `case_generator.dfy` (module `CaseGen`) models the case overlay
  (`src/components/CaseGenerator.tsx`) in the same way: a class `CaseSession`
  with its state, upload and drop staging, and a "must have an image" guard
  before the edit call.
- `api.dfy` (module `Api`) models the API client (`src/services/api.ts`).
  `Client` holds the module-level `API_KEY` and the axios instance's two layers
  of default headers. Requests are values built by pure functions, and the
  response or rejection is a parameter. `Settle` and `ExtractUrl` model how
  `data[0].url` is taken out.

Supporting modules:

- `text.dfy` models JavaScript's `startsWith`, `length` (in UTF-16 code
  units) and `trim`, with the ECMAScript white-space set.
- `session.dfy` holds what both widgets share: the MIME-type check, the model
  choices, the shared messages and the outcome of an awaited call.
- `wrappers.dfy` holds `Option` and `Result`.
- `scenarios.dfy` strings handler calls together into short runs.

Three behaviours of the code worth noting:

- `clearXKey` does not reset the client's key (`ImageGen.Generator.ClearXKey`
  ensures `unchanged(api)`).
- Module initialisation installs any non-empty stored key without checking its
  format.
- The case overlay never checks the X key.

## Model

| member | source | states |
|---|---|---|
| Text.TrimStart | src/components/ImageGenerator.tsx:171 | the leading part `trim` drops is all white space, and what remains is a suffix of the input that is empty or starts with a non-white-space character |
| Text.TrimEnd | src/components/ImageGenerator.tsx:182 | the trailing part dropped is all white space, and what remains is a prefix of the input that is empty or ends with a non-white-space character |
| Text.BlankConcat | src/components/ImageGenerator.tsx:171 | a concatenation is blank exactly when both halves are |
| Text.TrimEmptyIffBlank | src/components/ImageGenerator.tsx:171 | `!s.trim()` holds exactly when every character of `s` is ECMAScript white space |
| Text.TrimIsInfix | src/components/ImageGenerator.tsx:171 | `s.trim()` is the infix of `s` between a blank prefix and a blank suffix; with `Text.Trim`'s own ensures, that infix neither begins nor ends with white space |
| Text.Utf16Length | src/components/ImageGenerator.tsx:85 | `key.length` counts UTF-16 code units: at least one and at most two per character |
| Text.Utf16LengthBmp | src/components/ImageGenerator.tsx:85 | for Basic Multilingual Plane text, `length` is the number of characters |
| Text.Utf16LengthConcat | src/components/ImageGenerator.tsx:85 | `length` adds up over a concatenation |
| Api.SavedKey | src/services/api.ts:11-14 | a stored key is used exactly when present and non-empty, and it is then the stored value |
| Api.SentHeaders | src/services/api.ts:21-31 | the headers sent are exactly those of both layers: a header given at creation wins, and a `common` header not given at creation keeps its value |
| Api.GenerationRequest | src/services/api.ts:34-40 | posts to the generations endpoint with the given headers and the JSON fields model, prompt, aspect ratio, the omitted ones taking their defaults |
| Api.EditRequest | src/services/api.ts:49-63 | posts to the edits endpoint with only `Authorization: Bearer <key>` (no content type) and the form parts model, prompt, image in that order |
| Api.Client.RequestFor | src/services/api.ts:34-60 | a generation goes to its endpoint with the instance's merged default headers and the JSON body model, prompt, aspect ratio taken from the call; an edit goes to its endpoint with only the bearer of `API_KEY` read at call time and the form parts model, prompt, image taken from the call |
| Api.GenerationDefaults | src/services/api.ts:34-40 | without optional arguments the body is `{model: "nano-banana", prompt, aspect_ratio: "4:3"}`, posted to `https://api.xlap.top/v1/images/generations` |
| Api.RequestFieldsExclusive | src/services/api.ts:36-55 | a generation body carries exactly `model, prompt, aspect_ratio` and no image; an edit form carries exactly `model, prompt, image` in that order and no aspect ratio |
| Api.ExtractUrl | src/services/api.ts:42 | succeeds exactly when `data` is present and non-empty, then yields the first item's `url`; otherwise the missing-result error |
| Api.Settle | src/services/api.ts:42-46 | a rejection reaches the caller unchanged; a response succeeds exactly when `data` is present and non-empty, yielding the first item's url, and otherwise fails with the missing-result error |
| Api.StaleAuthorizationAsWritten | src/services/api.ts:18-31 | after `setApiKey` as written, the Authorization sent is still the bearer of the key the module started with, never the new one |
| Api.Client.constructor | src/services/api.ts:8-31 | `API_KEY` is the stored key when present and non-empty, else `""`; the instance is created with `Bearer API_KEY`; the client invariant holds |
| Api.Client.SetApiKeyAsWritten | src/services/api.ts:18-22 | sets `API_KEY` and the `common` Authorization and changes nothing else |
| Api.Client.SetApiKey | src/services/api.ts:18-22 | sets `API_KEY` and the Authorization at both header levels to the new bearer, keeping the invariant that requests carry the current key |
| Api.RequestCarriesCurrentKey | src/services/api.ts:25-63 | under the client invariant both calls send `Bearer API_KEY` read at call time, only a generation declares JSON content, and each goes to its own endpoint |
| Session.IsImageFileIffPrefix | src/components/ImageGenerator.tsx:149 | a file is accepted exactly when its MIME type begins with `image/` (`text/plain` refused, `image/png` accepted) |
| Session.FailureMessage | src/components/ImageGenerator.tsx:201 | the shown text is the thrown error's message, or the fallback text when there is none |
| ImageGen.ValidKey | src/components/ImageGenerator.tsx:85 | a valid key begins with `sk-` and has between 26 and 51 characters (51 code units) |
| ImageGen.AstralCharacterCountsTwice | src/components/ImageGenerator.tsx:85 | `sk-`, 47 letters and an emoji make 51 characters but 52 code units, and the key is refused |
| ImageGen.ValidKeyShape | src/components/ImageGenerator.tsx:84-88 | a key is valid exactly when it is 51 code units long and begins with `sk-`, so it is never blank; for Basic Multilingual Plane text that is 51 characters |
| ImageGen.ValidKeySurvivesTrim | src/components/ImageGenerator.tsx:171 | a valid key never trims to the empty string |
| ImageGen.Completed | src/components/ImageGenerator.tsx:199-207 | `isLoading` ends false; success shows the url; failure shows the message in both error and toast and keeps `imageUrl`; nothing else changes |
| ImageGen.GuardOrder | src/components/ImageGenerator.tsx:169-186 | the first failing guard is the blank key, then the malformed key, then the blank prompt, each as an if-and-only-if |
| ImageGen.SubmissionRejects | src/components/ImageGenerator.tsx:169-186 | a submission makes no call exactly when a guard fails; it then differs from the old state only in error and toast, which show that guard's message, and in storage, which gains the key exactly when it is valid |
| ImageGen.SubmissionCalls | src/components/ImageGenerator.tsx:187-198 | with a valid key and a non-blank prompt the key is saved, `isLoading` is set, the error is cleared, and exactly the edit call is made when an image is staged, otherwise exactly the generate call |
| ImageGen.ModeExclusive | src/components/ImageGenerator.tsx:192-197 | the request sent carries an aspect ratio exactly when no image is staged and the image exactly when one is |
| ImageGen.KeyCheckCases | src/components/ImageGenerator.tsx:120-135 | a non-empty malformed key is refused with the format message and storage is untouched; an empty key passes unchanged; a valid key is saved |
| ImageGen.KeyEditedValidates | src/components/ImageGenerator.tsx:103-109 | after a key edit the flag equals the validator on the new key, and an empty key is never valid |
| ImageGen.ClearIdempotent | src/components/ImageGenerator.tsx:138-142 | clearing empties the key, clears the flag and removes the stored key; clearing twice equals clearing once |
| ImageGen.UploadCases | src/components/ImageGenerator.tsx:144-163 | no file changes nothing; a non-image sets error and toast and stages nothing; an image is staged and the error cleared |
| ImageGen.SaveThenReload | src/components/ImageGenerator.tsx:91-135 | a valid key saved by check-and-save is loaded back and shown as valid by a fresh mount; a cleared key is not found |
| ImageGen.Generator.constructor | src/components/ImageGenerator.tsx:56-67 | the initial state: empty key and prompt, ratio `4:3`, model `nano-banana`, not loading, no image |
| ImageGen.Generator.ShowToast | src/components/ImageGenerator.tsx:73-76 | sets the toast message and makes it visible, nothing else |
| ImageGen.Generator.CloseToast | src/components/ImageGenerator.tsx:79-81 | hides the toast, nothing else |
| ImageGen.Generator.ValidateXKey | src/components/ImageGenerator.tsx:84-88 | returns the validator's verdict and stores the same value in `isValidKey` |
| ImageGen.Generator.LoadSavedKey | src/components/ImageGenerator.tsx:91-100 | a truthy stored key becomes the key and is validated, and only a valid one is handed to `setApiKey` as written; otherwise the client is unchanged |
| ImageGen.Generator.SetXKey | src/components/ImageGenerator.tsx:103-109 | an edit of the key followed by re-validation, keeping `isValidKey == ValidKey(xKey)` |
| ImageGen.Generator.SaveXKeyToStorage | src/components/ImageGenerator.tsx:112-117 | only a valid key is stored and handed to `setApiKey` as written; otherwise storage and client are unchanged; no precondition |
| ImageGen.Generator.CheckAndSaveXKey | src/components/ImageGenerator.tsx:120-135 | performs `KeyChecked` and returns its verdict; the client gets the key through `setApiKey` as written exactly when it is valid |
| ImageGen.Generator.ClearXKey | src/components/ImageGenerator.tsx:138-142 | performs `Cleared`; the client keeps its key |
| ImageGen.Generator.HandleImageUpload | src/components/ImageGenerator.tsx:144-163 | performs `Uploaded` on the selected files |
| ImageGen.Generator.RemoveImage | src/components/ImageGenerator.tsx:247-251 | both the staged file and its preview are cleared, nothing else |
| ImageGen.Generator.SetPrompt | src/components/ImageGenerator.tsx:359 | sets the prompt, nothing else |
| ImageGen.Generator.SetAspectRatio | src/components/ImageGenerator.tsx:388-392 | sets one of the eight offered ratios, nothing else |
| ImageGen.Generator.SetModel | src/components/ImageGenerator.tsx:408-412 | sets one of the two offered models, nothing else |
| ImageGen.Generator.BeginSubmit | src/components/ImageGenerator.tsx:169-198 | performs `Submission`: the three guards in order, then `isLoading` and the mode's call; the client gets the key through `setApiKey` as written exactly when it is valid, whatever headers it held before |
| ImageGen.Generator.SubmitPrompt | src/components/ImageGenerator.tsx:182-198 | performs `PromptStage`: the blank-prompt guard, then `isLoading`, cleared error and the call chosen by whether an image is staged |
| ImageGen.Generator.FinishSubmit | src/components/ImageGenerator.tsx:199-207 | performs `Completed` for the settled outcome |
| ImageGen.Generator.HandleSubmit | src/components/ImageGenerator.tsx:169-208 | the whole handler: a refused submission ends in the guard's state; otherwise the call's outcome is completed |
| ImageGen.Generator.ClickSubmit | src/components/ImageGenerator.tsx:365 | a click while loading changes nothing and makes no call; otherwise it makes the submission's call and ends in the submission's state, completed with the outcome when a call was made |
| CaseGen.Initial | src/components/CaseGenerator.tsx:57-64 | no result, model `nano-banana`, not loading, no image staged |
| CaseGen.Completed | src/components/CaseGenerator.tsx:174-182 | `isLoading` ends false; success sets the result url; failure shows the message or the fallback and keeps the result |
| CaseGen.GenerationCases | src/components/CaseGenerator.tsx:161-173 | without an image: the upload-first message, no call, `isLoading` and result kept; with one: `isLoading` set and exactly the edit call with the case's prompt and model; never a generate call |
| CaseGen.EnabledMeansCall | src/components/CaseGenerator.tsx:295 | the generate button is enabled exactly when nothing is in flight and a click would make a call |
| CaseGen.StagedCases | src/components/CaseGenerator.tsx:128-146 | an empty list changes nothing; only the first file counts; a non-image is refused without staging; an image is staged and the error cleared |
| CaseGen.CallIgnoresKey | src/components/CaseGenerator.tsx:173 | with an image staged the edit request is always sent, authenticated with whatever key the client holds |
| CaseGen.CaseSession.constructor | src/components/CaseGenerator.tsx:56-64 | the overlay opens in `Initial()` with the case's prompt |
| CaseGen.CaseSession.ShowToast | src/components/CaseGenerator.tsx:69-72 | sets the toast message and makes it visible, nothing else |
| CaseGen.CaseSession.CloseToast | src/components/CaseGenerator.tsx:75-77 | hides the toast, nothing else |
| CaseGen.CaseSession.StageFile | src/components/CaseGenerator.tsx:132-146 | the type check and staging shared by upload and drop |
| CaseGen.CaseSession.HandleImageUpload | src/components/CaseGenerator.tsx:80-99 | performs `Staged` on the input's files |
| CaseGen.CaseSession.HandleDrop | src/components/CaseGenerator.tsx:123-147 | performs `Staged` on the dropped files, exactly as an upload does |
| CaseGen.CaseSession.RemoveImage | src/components/CaseGenerator.tsx:239-243 | clears both the staged image and its preview, nothing else |
| CaseGen.CaseSession.SetModel | src/components/CaseGenerator.tsx:286-290 | sets one of the two offered models, nothing else |
| CaseGen.CaseSession.BeginGenerate | src/components/CaseGenerator.tsx:161-173 | performs `Generation` with the case's prompt |
| CaseGen.CaseSession.FinishGenerate | src/components/CaseGenerator.tsx:174-182 | performs `Completed` for the settled outcome |
| CaseGen.CaseSession.HandleGenerateImage | src/components/CaseGenerator.tsx:161-183 | the whole handler: guard, then completion of the edit call's outcome |
| CaseGen.CaseSession.ClickGenerate | src/components/CaseGenerator.tsx:294-295 | a click on the disabled button changes nothing; otherwise exactly the edit call is made and completed |
| Scenarios.SavedKeyNotSentWithGeneration | src/services/api.ts:18-31 | after a first visit and a valid key saved by the widget, a generation request carries `Bearer ` with the empty load-time key while an edit request carries the new key |

## Left out

- Rendering, CSS classes, the help tooltip (`showHelpTooltip`), the logo and links, and the header, footer, page and background components.
- The toast's three-second auto-dismiss timer. `CloseToast` models only its effect.
- `handleUploadButtonClick`, which only forwards a click to the hidden file input.
- Drag-over and drag-leave styling of the drop area.
- `UserCase.tsx` and the case data set. A case enters the model only as its fixed prompt.
- HTTP traffic, `FormData` and `URL.createObjectURL`. A request is a value, the response or rejection is a parameter, and the preview url is a parameter.
- `localStorage` as browser storage. It is a map field, and the `typeof window` check at module load is not modelled (initialisation always reads it).
- `console.error` logging in the catch blocks.
- Async interleaving: two submissions in flight, or a case overlay closed while its request is pending. Each submission is one atomic guard, outcome and completion step.
- React's render timing. The re-validate effect on `[xKey]` is folded into the key edit (`ImageGen.Generator.SetXKey`), so the invariant `isValidKey == ValidKey(xKey)` holds between handlers rather than for the frame between an edit and its effect.
- The widgets' `Outcome` is not derived from `Api.Settle`. A first `data` item without a `url` would resolve to `undefined`, and the widgets would then show no image. The outcome's url is a string.
- Api.Client.SetApiKey: it also rewrites the Authorization given at creation, which `setApiKey` as written does not. See Findings; `Api.Client.SetApiKeyAsWritten` is the code as written, and it is what the widget calls.
- JavaScript strings may hold lone surrogate code units; Dafny strings hold only Unicode scalar values, so such keys and prompts are not modelled.

## Findings

| source | as written | input that shows it | evidently intended | confidence | as-written member | corrected member |
|---|---|---|---|---|---|---|
| src/services/api.ts:18-31 | `setApiKey` writes only `defaults.headers.common.Authorization`. The `Authorization` passed to `axios.create` sits above `common` when axios merges headers, so generation requests keep the bearer of the key read at module load | first visit with empty storage, then a valid key is saved: `generateImage` sends `Bearer ` (empty key) while `editImage` sends the new key | every request carries `Bearer API_KEY` for the current key | medium; not executed; relies on axios's header merge order | Api.Client.SetApiKeyAsWritten, Api.StaleAuthorizationAsWritten, Scenarios.SavedKeyNotSentWithGeneration | Api.Client.SetApiKey, Api.RequestCarriesCurrentKey |
