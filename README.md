# Banana Studio page script, modelled in Dafny

Banana Studio is a one-page web tool. The user uploads a character image, or the
page restores one saved earlier as "default character" in the browser's local
storage. The user then types a prompt and presses *generate*. The page shows a
loading panel while a generator works, and then either a result panel with the
generated image or, on failure, the initial panel again. The generated image can
be downloaded. The generator in `script.js` is still a stand-in: after a delay it
answers with the character image itself.

This project models the page script's state and event handlers and proves the
invariants they keep.

- `wrappers.dfy`: `Option`, used for the script's two globals, which hold
  `null` or a string.
- `text.dfy`: `String.prototype.trim` over the full ECMAScript
  whitespace/line-terminator set, and `startsWith`.
- `flow.dfy`: the pure model. `PageState` records which panel is displayed, the
  button's `disabled` flag, the preview flag, the two images and the storage map.
  Each handler is one transition function. `Step`/`Run` replay any sequence of
  user events and generator answers. The lemmas state the page's properties.
- `studio.dfy`: class `Studio`, the page as an object. Its fields are the same
  state, and its methods update them in place as the handlers do. Each method's
  postcondition ties the new `State()` to the matching `Flow` transition.

The asynchronous generate handler has two halves. `OnGenerateClick` runs the
guards and enters the loading state. `CompleteGenerate` takes the generator's
outcome: it resolved with a successful answer, resolved with an unsuccessful
answer, or threw. `Generate` puts the two halves together with the stand-in
generator.

JavaScript truthiness of a value that is `null` or a string is written out as
`Truthy`: present and not empty. `index.html` is not part of this model. The
state at page load (initial panel shown, the other two hidden, button enabled,
no preview) is assumed from it in `Flow.Blank`.

## Model

| member | source | states |
|---|---|---|
| Text.TrimStart | script.js:73 | the result is a suffix of the input, everything removed is whitespace, and the result does not start with whitespace |
| Text.TrimEnd | script.js:73 | the result is a prefix of the input, everything removed is whitespace, and the result does not end with whitespace |
| Text.IsWhitespace | script.js:73 | space, tab, line feed and carriage return are removed by `trim`; letters and digits never are |
| Text.Trim | script.js:73 | the trimmed prompt is a middle part of the prompt with only whitespace before and after it; when non-empty it starts and ends with a non-whitespace character |
| Text.TrimEmptyIff | script.js:73 | the trimmed prompt is empty exactly when the prompt is all whitespace |
| Text.StartsWith | script.js:29 | true exactly when the string's first characters are the prefix |
| Text.TrimAndStartsWithExamples | script.js:29 | a whitespace-only string trims to empty; `image/png` passes the MIME check; `image` and `text/plain` do not |
| Flow.ShowInitial | script.js:155-160 | only the initial panel is shown, the button is enabled, and the session is unchanged |
| Flow.ShowLoading | script.js:162-167 | only the loading panel is shown, the button is disabled, and the session is unchanged |
| Flow.ShowResult | script.js:169-174 | only the result panel is shown, the button is enabled, and the session is unchanged |
| Flow.Blank | script.js:15-16 | before the script runs, both images are null and the initial panel is shown |
| Flow.LoadDefault | script.js:62-69 | a non-empty stored default becomes the current image and is previewed; an absent or empty one changes nothing |
| Flow.Opened | script.js:22-24 | after page load the invariant holds, no generated image exists, and the current image is the non-empty stored default or null |
| Flow.AcceptsFile | script.js:29 | a file is accepted exactly when one is selected and its MIME type begins with `image/` |
| Flow.ChangeFile | script.js:27-47 | an accepted file's data URL becomes the current image and is previewed; a missing or non-image file changes nothing; nothing else changes |
| Flow.SaveOutcomeOf | script.js:50-59 | with no current image nothing is saved; otherwise the save succeeds exactly when the write is accepted |
| Flow.SaveDefault | script.js:50-59 | a present image with an accepted write is stored under the default key; otherwise nothing changes; only the storage can change |
| Flow.Validate | script.js:73-84 | the image is checked first and the prompt second; a start carries the current image and the non-empty trimmed prompt |
| Flow.StartGenerate | script.js:72-87 | when both guards pass, the loading state is entered and the session is unchanged; when either fails, nothing changes |
| Flow.FinishGenerate | script.js:93-105 | success stores the returned image and shows the result panel; failure or a throw shows the initial panel; either way the generated image, current image and storage are as stated and the button is enabled |
| Flow.FailureMessage | script.js:98-103 | a reason exists exactly for failures; a throw reports its own message; an unsuccessful answer reports its `error`, or the fixed default reason when that is empty |
| Flow.DownloadRequest | script.js:177-181 | a link exists exactly when the generated image is non-empty; it points at that image under `character_result.png` |
| Flow.PressGenerate | script.js:197 | pressing a disabled button changes nothing; pressing an enabled one runs the generate handler |
| Flow.KeyDown | script.js:194-199 | Enter without Shift presses the generate button; any other key changes nothing |
| Flow.Step | script.js:22-199 | every handler keeps the page invariant |
| Flow.RunKeepsValid | script.js:155-174 | along any sequence of events, exactly one panel is shown and the button is disabled iff loading is shown |
| Flow.OpenedRunKeepsValid | script.js:22-24 | from page load on, the invariant holds whatever happens |
| Flow.LoadingOnlyAfterGuards | script.js:76-87 | the loading panel is entered only by a generate press or Enter, with a current image and a non-blank prompt |
| Flow.NoReentryWhileLoading | script.js:162-167 | while loading, a button press or Enter changes nothing |
| Flow.StaysLoadingUntilAnswer | script.js:87-105 | once loading, events other than a generator answer leave the panels, the button and the generated image as they are |
| Flow.StepGenerated | script.js:94-95 | only a successful answer changes the generated image, and it sets it to that answer's image |
| Flow.GeneratedImageComesFromGenerator | script.js:94-95 | after any run, the generated image is either the earlier one or one that a successful answer in the run delivered |
| Flow.StubShowsCharacter | script.js:109-121 | `GenerateImageWithGemini` answers successfully with the character image it is given: with it, a generation started with a current image and a non-blank prompt ends on the result panel with the current character image and the button enabled |
| Flow.FailedGenerationKeepsImages | script.js:98-105 | a failed or thrown generation ends on the initial panel with both images unchanged |
| Flow.SaveThenLoadRoundTrip | script.js:50-69 | saving and then loading restores the saved image, even when another file was chosen in between |
| Flow.FailedSaveKeepsDefault | script.js:50-57 | a save with no image or with a rejected write leaves unchanged what a later load finds |
| Flow.SavedDefaultSurvivesReload | script.js:19-24 | a page opened on the storage left by a successful save starts with the saved character |
| App.Studio.constructor | script.js:15-24 | the new page is in the opened state and valid |
| App.Studio.ShowInitialState | script.js:155-160 | the fields become `ShowInitial` of the old state |
| App.Studio.ShowLoadingState | script.js:162-167 | the fields become `ShowLoading` of the old state |
| App.Studio.ShowResultState | script.js:169-174 | the fields become `ShowResult` of the old state |
| App.Studio.LoadDefaultCharacter | script.js:62-69 | the fields become `LoadDefault` of the old state; validity is kept |
| App.Studio.OnFileChange | script.js:27-47 | accepts exactly the files `AcceptsFile` admits; the fields become `ChangeFile` of the old state; validity is kept |
| App.Studio.OnSaveDefaultClick | script.js:50-59 | reports `SaveOutcomeOf`; the fields become `SaveDefault` of the old state; validity is kept |
| App.Studio.OnGenerateClick | script.js:72-87 | returns the guards' decision; the fields become `StartGenerate` of the old state; validity is kept |
| App.Studio.CompleteGenerate | script.js:93-105 | returns the reason to alert; the fields become `FinishGenerate` of the old state; the page is valid |
| App.Studio.Generate | script.js:72-121 | with the stand-in generator: a guard failure changes nothing; a start ends in `FinishGenerate` of `StartGenerate` on the stand-in's answer, i.e. on the result panel with the old current image as generated image; the preview, current image and storage never change |
| App.Studio.PressGenerateButton | script.js:197 | a disabled button starts nothing; an enabled one returns the guards' decision; the fields become `Step` on the press; validity is kept |
| App.Studio.OnPromptKeyDown | script.js:194-199 | a generate attempt happens exactly on Enter without Shift with the button enabled; the fields become `Step` on the key event; validity is kept |
| App.Studio.OnDownloadClick | script.js:177-181 | a link exists exactly when the generated image is non-empty, and it carries that image and the fixed file name |
| App.SavedCharacterSession | script.js:22-121 | with a saved default and a non-blank prompt, the page ends on the result panel showing the saved character |

## Left out

- DOM lookups, `alert`, `console.error` and `preventDefault` are UI I/O. Alerts appear only as the handlers' return values: the guard decision, the save outcome and the failure reason.
- The `src` of the preview and result images only mirrors `currentCharacterImage` and `generatedImageData`, so it is not modelled separately.
- Building and clicking the download anchor (script.js:184-191) is UI I/O. `OnDownloadClick` returns the link it would create.
- The `FileReader` decoding (script.js:37-47) is browser I/O. Reading a file is modelled as one atomic step that sets the current image to the file's data URL. Other events cannot interleave between the file choice and `onload`.
- The stand-in generator's `setTimeout` delay and the Promise scheduling are not modelled. The handler is split into `OnGenerateClick` and `CompleteGenerate`. The trace model lets a generator answer arrive at any point. Overlapping generations are guarded only by the disabled button, as in the page.
- The commented-out `fetch` client (script.js:123-151) is dead code.
- The local storage quota is not modelled. Whether a write is accepted is an input. A rejected write throws and leaves the storage unchanged.
- `index.html` is not part of this model. `Flow.Blank` assumes the state it sets up.
- A missing `error` field of an unsuccessful answer is modelled as the empty string. Both are falsy, so both give the default reason.
