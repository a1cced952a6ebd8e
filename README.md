# Postcard collage: asset list, image-service client and panel state

This project models the logic core of a client-side postcard collage application in Dafny, and proves properties of that model. Users upload photos or generate them from a text prompt. They can edit a photo with an instruction sent to an image model and preview the collage layout. The modelled parts are:

- **The asset list** of the `usePostcard` hook (module `PostcardStore`). It is an ordered list of `ImageAsset` records. The hook appends upload placeholders, fills a placeholder when its file has been read, appends generated images, removes entries by id, saves edits by id and resets. The class `PostcardImages` holds the list and replaces it in every handler, as the hook does. The list-level operations are specification functions with lemmas about them.
- **The image-service client** (module `GeminiService`). It checks the API key, detects the MIME type from a `data:image/<letters>;base64,` prefix and strips that prefix. It builds the edit and generation requests, takes the first inline image of the first candidate and re-labels it `image/png`, and has three error paths: missing key, no image, and a rethrown service error. The SDK call is a function parameter `send: Request -> Reply`. The key stands for `process.env.API_KEY`.
- **The collage layout rules** (module `CollageCanvas`): the container class for each image count and orientation, the span of the first of three cells, one cell per image, and the empty state and watermark.
- **The editor modal and the generator panel** (modules `PhotoEditor` and `ImageGenerator`). Each is a class with the component's state fields. Each asynchronous `handleGenerate` is split at its `await` into `BeginGenerate` and `FinishGenerate`, so other handlers can run in between. `Generate` runs both around the service method. The "Changes Applied" badge and the GO button are the predicates `ChangesApplied` and `GoDisabled`. The props the parent passes on every render are fields that it can reset: the editor's `image` through `SetImage` and the generator's `orientation` through `SetOrientation`. Other state is kept when they change. The editor's preview is initialised from the image only once. An Edit opened on a placeholder whose file then finishes reading therefore keeps the empty preview, the badge shows, and Apply would save that empty preview over the loaded photo.

Shared records live in `Types`. The JavaScript string operations used by the core (`trim`, `includes`, `substring`) live in `JsStrings`.

The model follows the code as written, in particular:

- Upload placeholders are created with `isProcessing` false (hooks/usePostcard.ts:19), not true. A completed read never changes `isProcessing` (hooks/usePostcard.ts:42-46).
- A read that completes after its placeholder was removed does not get dropped. It appends a new entry under a new id (hooks/usePostcard.ts:32-40). `PostcardStore.RemovedThenDecoded` states this.
- The generator passes an `apiKey` prop that `generateImageWithGemini` does not take. The key always comes from the environment.

Random ids (`Math.random().toString(36)`) are ids that the caller supplies. A precondition requires them to be fresh, which gives the class invariant "ids are distinct". The code itself does not guarantee that. A file's bytes and the `FileReader` result are opaque: a completed read is a call of `CompleteDecode` with the result string. Whether the host page's key picker (`window.aistudio`) exists is the boolean `pickerPresent`.

## Model

| member | source | states |
|---|---|---|
| `JsStrings.TrimStart` | components/ImageGenerator.tsx:24 | the result is a suffix of the input, everything dropped is whitespace or a line terminator, and the result does not start with one |
| `JsStrings.TrimEnd` | components/PhotoEditorModal.tsx:25 | the result is a prefix of the input, everything dropped is whitespace or a line terminator, and the result does not end with one |
| `JsStrings.Trim` | components/ImageGenerator.tsx:24 | defined directly, with no contract of its own: `TrimStart` then `TrimEnd`, the blank-prompt guard of both panels (also components/PhotoEditorModal.tsx:25); `TrimEmptyIffAllTrimmable` states when it is empty |
| `JsStrings.TrimEmptyIffAllTrimmable` | components/ImageGenerator.tsx:24 | `!s.trim()` holds exactly when every character of `s` is whitespace or a line terminator, in both directions |
| `JsStrings.PrefixUpTo` | hooks/usePostcard.ts:60 | `substring(0, n)` has length `min(n, |s|)` and is a prefix of `s` |
| `JsStrings.Contains` | components/ImageGenerator.tsx:48 | defined directly, with no contract of its own: `includes`, that is, `t` occurs in `s` at some offset; `NotContainsWithoutFirstChar` states when it fails |
| `PostcardStore.IndexOf` | hooks/usePostcard.ts:30 | `findIndex` by id: -1 exactly when no entry has the id; otherwise an index holding the id with no earlier entry holding it |
| `PostcardStore.FindIndex` | hooks/usePostcard.ts:30 | the loop form of the lookup returns what `IndexOf` specifies |
| `PostcardStore.IndexOfSameIdUpdate` | hooks/usePostcard.ts:42-46 | overwriting an entry with one of the same id does not move the first occurrence of any id |
| `PostcardStore.Placeholder` | hooks/usePostcard.ts:14-20 | defined directly, with no contract of its own: the placeholder record with the file's name, empty payloads and `isProcessing` false |
| `PostcardStore.FallbackEntry` | hooks/usePostcard.ts:34-40 | defined directly, with no contract of its own: the record appended when the placeholder is gone, with the read result as both payloads |
| `PostcardStore.DecodeCompleted` | hooks/usePostcard.ts:27-48 | with the placeholder present, the length is unchanged; with it absent, the list is the old list plus the fallback entry |
| `PostcardStore.DecodeCompletedPresent` | hooks/usePostcard.ts:41-46 | with the placeholder present, only its two payloads change. Its id, name and flag, every other entry and the length stay the same |
| `PostcardStore.DecodeCompletedCommute` | hooks/usePostcard.ts:27-48 | completions for two different placeholders that are both present give the same list in either order |
| `PostcardStore.RemovedThenDecoded` | hooks/usePostcard.ts:32-40 | a read that completes after its placeholder was removed appends exactly one new entry after the remaining ones, which are unchanged. The new entry has the new id, the file's name, both payloads equal to the read result, and `isProcessing` false |
| `PostcardStore.GeneratedName` | hooks/usePostcard.ts:60 | the label is "AI Generated: ", then the first `min(15, |prompt|)` characters of the prompt, then "..." |
| `PostcardStore.GeneratedEntry` | hooks/usePostcard.ts:58-64 | defined directly, with no contract of its own: the generated record, with the data URI as both payloads and the generated label |
| `PostcardStore.Removed` | hooks/usePostcard.ts:68-70 | an entry stays exactly when it was there and its id differs from the removed id |
| `PostcardStore.RemovedAppend` | hooks/usePostcard.ts:69 | removal distributes over concatenation, so the remaining entries keep their relative order |
| `PostcardStore.RemovedAbsent` | hooks/usePostcard.ts:69 | removing an id that no entry has changes nothing |
| `PostcardStore.RemovedIdempotent` | hooks/usePostcard.ts:68-70 | removing twice is the same as removing once |
| `PostcardStore.RemovedPresentDistinct` | hooks/usePostcard.ts:69 | with distinct ids, removing a present id drops exactly one entry |
| `PostcardStore.RemovedKeepsDistinct` | hooks/usePostcard.ts:69 | removal keeps ids distinct |
| `PostcardStore.SavedEdit` | hooks/usePostcard.ts:72-76 | the length is the same, and each entry with the id gets the new `currentData` and nothing else; every other entry stays |
| `PostcardStore.SavedEditAbsent` | hooks/usePostcard.ts:72-76 | saving an edit for an id that no entry has changes nothing |
| `PostcardStore.SavedEditKeepsIndex` | hooks/usePostcard.ts:72-76 | a saved edit moves no id, so a later read completion finds its placeholder at the same index |
| `PostcardStore.PostcardImages.constructor` | hooks/usePostcard.ts:9 | the list starts empty |
| `PostcardStore.PostcardImages.Upload` | hooks/usePostcard.ts:13-55 | one placeholder per file is appended after the old entries, in file order. Each placeholder has the file's name, empty payloads and `isProcessing` false. The old entries are unchanged. It returns each file's (placeholder id, name) pair for its read callback |
| `PostcardStore.PostcardImages.CompleteDecode` | hooks/usePostcard.ts:25-50 | the new list is `DecodeCompleted` of the old one, and ids stay distinct |
| `PostcardStore.PostcardImages.AddGenerated` | hooks/usePostcard.ts:57-66 | an entry is appended after all old entries. Both its payloads are the returned data URI, its name is the generated label and `isProcessing` is false |
| `PostcardStore.PostcardImages.Remove` | hooks/usePostcard.ts:68-70 | the new list is `Removed` of the old one, and no entry keeps the id. Because ids are distinct, removing a present id shortens the list by exactly one |
| `PostcardStore.PostcardImages.SaveEdit` | hooks/usePostcard.ts:72-76 | the new list is `SavedEdit` of the old one |
| `PostcardStore.PostcardImages.Reset` | hooks/usePostcard.ts:78 | the list is empty, whatever it held before |
| `GeminiService.GetAiClient` | services/geminiService.ts:7-13 | the call fails with the "API Key is missing…" message exactly when the key is absent or empty; otherwise the client carries the key |
| `GeminiService.LetterRun` | services/geminiService.ts:29 | the greedy `[a-zA-Z]+` run: a prefix made only of ASCII letters and followed by a non-letter or the end |
| `GeminiService.LetterRunOfLettersThenOther` | services/geminiService.ts:29 | letters followed by a non-letter give exactly those letters as the run |
| `GeminiService.MatchDataUri` | services/geminiService.ts:29 | defined directly, with no contract of its own; `MatchDataUriCorrect` relates it to the regular expression |
| `GeminiService.MatchDataUriCorrect` | services/geminiService.ts:29-30 | the matcher returns `letters` exactly when the input starts with `data:image/` + letters + `;base64,` and the letters are one or more ASCII letters |
| `GeminiService.MimeTypeOf` | services/geminiService.ts:27-32 | the type is `image/<letters>` when the prefix matches with those letters, and `image/jpeg` when nothing matches |
| `GeminiService.DetectMimeType` | services/geminiService.ts:28-32 | the local `mimeType`, which starts at `image/jpeg` and is replaced on a match, ends as `MimeTypeOf` of the input |
| `GeminiService.StripDataUriPrefix` | services/geminiService.ts:35 | the prefix followed by the result gives back the input when the prefix matches; otherwise the result is the input unchanged |
| `GeminiService.MimeAndPayloadRoundTrip` | services/geminiService.ts:27-35 | for a matching input, `"data:" + mime + ";base64," + stripped` equals the input |
| `GeminiService.EditRequest` | services/geminiService.ts:38-56 | defined directly, with no contract of its own: the edit model, the stripped image with its detected type, then the instruction, and image output only |
| `GeminiService.GenerateRequest` | services/geminiService.ts:91-106 | defined directly, with no contract of its own: the generation model, the prompt as the only part, and the aspect ratio and size |
| `GeminiService.EditRequestImagePart` | services/geminiService.ts:27-46 | the image part of the edit request loses nothing. For a data URI, its MIME type and payload rebuild the input. For anything else, it carries the input unchanged as `image/jpeg` |
| `GeminiService.FirstImagePart` | services/geminiService.ts:62-66 | -1 exactly when no part has non-empty inline data; otherwise the first part that has it |
| `GeminiService.HasImageData` | services/geminiService.ts:63 | defined directly, with no contract of its own: `part.inlineData && part.inlineData.data`, that is, inline data with a non-empty payload |
| `GeminiService.FirstCandidateParts` | services/geminiService.ts:59-61 | defined directly, with no contract of its own: the parts of the first candidate, or none when there are no candidates |
| `GeminiService.ImageFromResponse` | services/geminiService.ts:59-67 | defined directly, with no contract of its own. `ExtractImage`, `OnlyFirstCandidateMatters`, `PartsAfterImageIgnored` and `ExtractedImageIsPng` state its properties |
| `GeminiService.ExtractImage` | services/geminiService.ts:59-67 | the loop returns `data:image/png;base64,` plus the data of the first qualifying part of the first candidate, or nothing |
| `GeminiService.OnlyFirstCandidateMatters` | services/geminiService.ts:59-61 | candidates after the first never change the result |
| `GeminiService.PartsAfterImageIgnored` | services/geminiService.ts:62-66 | parts after the first qualifying part never change the result |
| `GeminiService.ExtractedImageIsPng` | services/geminiService.ts:64 | every extracted image reads back as `image/png` with the part's data as its payload, whatever type the input or the part declared |
| `GeminiService.EditOutcome` | services/geminiService.ts:21-74 | defined directly, with no contract of its own: the key check, then the thrown message, the extracted image, or "No image data returned from Gemini."; the lemmas below state its properties |
| `GeminiService.GenerateOutcome` | services/geminiService.ts:83-124 | defined directly, with no contract of its own: the same paths for the generation request, with "No image generated." |
| `GeminiService.EditImageWithGemini` | services/geminiService.ts:21-74 | the edit call resolves or throws as its specification function says: the key check first, then the service's own error unchanged, the extracted image, or "No image data returned from Gemini." |
| `GeminiService.GenerateImageWithGemini` | services/geminiService.ts:83-124 | the generation call does the same, with "No image generated." when there is no image |
| `GeminiService.MissingKeyFailsFirst` | services/geminiService.ts:7-11 | with an absent or empty key, both calls fail with the key message, whatever the service would have answered |
| `GeminiService.UpstreamErrorRethrown` | services/geminiService.ts:70-73 | an error thrown by the service reaches the caller with its message unchanged |
| `GeminiService.ResponseDecidesOutcome` | services/geminiService.ts:59-69 | with a key and a response, a call succeeds exactly when the first candidate has an image part. A success is a PNG data URI, and a failure carries the call's own message |
| `CollageCanvas.GridClass` | components/CollageCanvas.tsx:22-29 | `getGridClass`, defined directly with no contract of its own; `GridClassTable` and `GridClassOrientation` state it |
| `CollageCanvas.GridClassTable` | components/CollageCanvas.tsx:22-29 | 0 images give the flex layout, 1 gives one column, 2 give two columns (landscape) or two rows (portrait), 3 and 4 give two by two, and every count from 5 gives three by two |
| `CollageCanvas.GridClassOrientation` | components/CollageCanvas.tsx:25 | orientation changes the layout exactly when there are two images |
| `CollageCanvas.SpanClass` | components/CollageCanvas.tsx:50-53 | the span is non-empty exactly for the first of three cells. It is `row-span-2` in landscape and `col-span-2` in portrait |
| `CollageCanvas.Cells` | components/CollageCanvas.tsx:49-63 | one cell per image, in list order. Each cell is keyed by the image's id, shows its `currentData` and has its span class |
| `CollageCanvas.ShowsEmptyState` | components/CollageCanvas.tsx:39 | defined directly, with no contract of its own: the empty-state panel renders when the list is empty |
| `CollageCanvas.ShowsWatermark` | components/CollageCanvas.tsx:67 | defined directly, with no contract of its own: the watermark renders when the list is not empty |
| `CollageCanvas.EmptyStateXorWatermark` | components/CollageCanvas.tsx:39-73 | the empty-state panel shows exactly when the list is empty, and the watermark shows exactly when it is not. The empty state goes with the flex layout |
| `CollageCanvas.SlotsUsedCount` | components/CollageCanvas.tsx:50-53 | cells take one grid slot each, and the first of three takes one more |
| `CollageCanvas.CellsFillGrid` | components/CollageCanvas.tsx:22-53 | for 1 to 4 images and for 6, the cells fill exactly the slots the chosen layout declares. 5 images leave one slot empty, and from 7 images on the cells need more slots than the three-by-two grid declares |
| `PhotoEditor.PhotoEditorModal.constructor` | components/PhotoEditorModal.tsx:18-21 | the preview starts at the image's `currentData`, with an empty prompt, no error and nothing in flight |
| `PhotoEditor.PhotoEditorModal.ChangesApplied` | components/PhotoEditorModal.tsx:105 | defined directly, with no contract of its own: the badge shows when the preview differs from `originalData` and nothing is in flight |
| `PhotoEditor.PhotoEditorModal.GoDisabled` | components/PhotoEditorModal.tsx:134 | defined directly, with no contract of its own: GO is disabled when the prompt is empty or a generation is in flight, with no trimming |
| `PhotoEditor.PhotoEditorModal.BeginGenerate` | components/PhotoEditorModal.tsx:24-27 | a prompt that trims to nothing changes no state. Otherwise generation starts, the error is cleared, and the image's `currentData` (not the preview) is sent with the prompt |
| `PhotoEditor.PhotoEditorModal.FinishGenerate` | components/PhotoEditorModal.tsx:29-36 | a result replaces the preview. A failure sets the fixed "Failed to process image…" message and keeps the preview. Generation is over either way, and the badge then shows exactly when the preview differs from `originalData` |
| `PhotoEditor.PhotoEditorModal.Generate` | components/PhotoEditorModal.tsx:24-37 | end to end, the preview becomes the edit of the image's `currentData`, so edits do not chain, and the error stays cleared. On failure the preview stays and the fixed message is set |
| `PhotoEditor.PhotoEditorModal.Apply` | components/PhotoEditorModal.tsx:39-42 | exactly one `onSave(image.id, preview)` followed by one `onClose`, and no state change |
| `PhotoEditor.PhotoEditorModal.Reset` | components/PhotoEditorModal.tsx:44-48 | the preview is the original, the prompt is empty and the error is cleared. The new state depends only on the image, so a second reset changes nothing, and the badge is off |
| `PhotoEditor.PhotoEditorModal.SetPrompt` | components/PhotoEditorModal.tsx:128 | the prompt becomes the typed text, and nothing else changes |
| `PhotoEditor.PhotoEditorModal.SetImage` | App.tsx:155-157 | the parent re-renders the modal with the entry it looks up by id (App.tsx:30). Only `image` changes. The preview keeps the value it was initialised with at components/PhotoEditorModal.tsx:20, so the badge now compares that value against the new `originalData` |
| `PhotoEditor.PhotoEditorModal.PresetClick` | components/PhotoEditorModal.tsx:50-52 | the prompt becomes the preset's prompt and nothing else changes |
| `PhotoEditor.WhitespacePromptIsIgnored` | components/PhotoEditorModal.tsx:24-25 | for an idle modal whose prompt is non-empty and all whitespace, GO is enabled (`GoDisabled` is false) and the prompt trims to nothing, so the click does nothing |
| `PhotoEditor.AppliedPreviewReachesStore` | App.tsx:155-159 | an `OnSave(id, preview)` call, as `Apply` records it, handed to the store's saved-edit handler as the parent wires `onSave`, makes the preview the current payload of the entry with that id. Its id, `originalData`, name and `isProcessing` stay |
| `ImageGenerator.AspectRatioFor` | components/ImageGenerator.tsx:39 | `16:9` exactly for landscape and `9:16` exactly for portrait |
| `ImageGenerator.ClassifyError` | components/ImageGenerator.tsx:46-54 | "API Key issue detected…" exactly when the message contains "Requested entity was not found" and the picker exists; "Failed to generate image…" in every other case |
| `ImageGenerator.MissingKeyMessageNotStale` | components/ImageGenerator.tsx:48 | the missing-key message does not contain the stale-key text |
| `ImageGenerator.ServiceFailuresAreGeneric` | components/ImageGenerator.tsx:46-54 | the service's own missing-key and no-image failures always get the generic message |
| `ImageGenerator.WhitespacePromptIsIgnored` | components/ImageGenerator.tsx:24-25 | for an idle panel whose prompt is non-empty and all whitespace, GO is enabled (`GoDisabled` is false) and the prompt trims to nothing, so the click does nothing |
| `ImageGenerator.ImageGeneratorPanel.constructor` | components/ImageGenerator.tsx:18-21 | the panel starts with an empty prompt, size `1K`, no error and nothing in flight |
| `ImageGenerator.ImageGeneratorPanel.GoDisabled` | components/ImageGenerator.tsx:105 | defined directly, with no contract of its own: GO is disabled when the prompt is empty or a generation is in flight, with no trimming |
| `ImageGenerator.ImageGeneratorPanel.SetOrientation` | App.tsx:40-45 | the parent re-renders the mounted panel with the new orientation. Only `orientation` changes, so the prompt and size are kept and the next generation asks for the new ratio |
| `ImageGenerator.ImageGeneratorPanel.SetSize` | components/ImageGenerator.tsx:84 | the size becomes the chosen one of `1K`, `2K` and `4K`, and nothing else changes |
| `ImageGenerator.ImageGeneratorPanel.SetPrompt` | components/ImageGenerator.tsx:69 | the prompt becomes the typed text, and nothing else changes |
| `ImageGenerator.ImageGeneratorPanel.BeginGenerate` | components/ImageGenerator.tsx:23-39 | a prompt that trims to nothing changes no state. Otherwise the error is cleared, generation starts, and the current prompt, size and the orientation's aspect ratio are sent |
| `ImageGenerator.ImageGeneratorPanel.FinishGenerate` | components/ImageGenerator.tsx:41-57 | on success the parent gets the result with the prompt that was sent, then the prompt box is cleared. On failure the classified message is set. Generation is over either way |
| `ImageGenerator.ImageGeneratorPanel.Generate` | components/ImageGenerator.tsx:23-58 | end to end, the outcome of the generation call for the old prompt, size and aspect ratio decides the state: the parent notified and the prompt cleared, or the classified error |

## Left out

- The image-model SDK, the network and `process.env`: the response and the key are parameters (`send`, `apiKey`). The model names are kept only as request fields.
- A malformed response whose first candidate has no `content`: in the code this throws a TypeError that is rethrown. A `Candidate` here always has a list of parts.
- `window.aistudio` (components/ImageGenerator.tsx:28-34, 50): the awaited key-picker calls are foreign asynchronous UI calls. Only whether the picker exists is kept, for classifying errors. The generator's clearing of the error and its start of generation happen in one step here, because the picker's await between them is left out.
- `FileReader`, `readAsDataURL` and the scheduling of `onload` and React state updates: each completed read is an explicit `CompleteDecode` call. A read that never completes leaves its placeholder with empty payloads, and no operation models that.
- `Math.random` ids: ids are supplied by the caller and required to be fresh.
- `PostcardStore.PostcardImages.Upload`: it appends the placeholders before any read completes. In the code the readers start before the append, and their callbacks run later.
- The hook's other state (`size`, `orientation`, `editingImageId`, `inputMode`) consists of plain setters with no logic.
- The modal's `activeTab` state (components/PhotoEditorModal.tsx:22, set at line 156) only chooses which preset list is shown (line 171). It is left out, and `PresetClick` accepts any `PresetStyle`. The preset tables (constants.ts:38-62) are static data. Its `label` field is called `displayLabel` here, because `label` is a Dafny keyword.
- The floating-point ratios of `POSTCARD_CONFIGS` and the `cssAspectRatio` string (components/CollageCanvas.tsx:16-20).
- The rendering-only components (Button, Header, ActionBar, ErrorBoundary, Gallery, SizeSelector, ImageUploader) and the rest of App.tsx.
- `console.error` logging, and the unused `apiKey` prop of the generator.
- JavaScript strings are UTF-16. Here a character is a Unicode scalar value, so `substring(0, 15)` in `PostcardStore.GeneratedName` counts characters, where the code counts code units. The two differ only for characters outside the Basic Multilingual Plane.
- The effect of `onClose` (the parent unmounting the modal): it is recorded in `parentCalls`, not performed.
