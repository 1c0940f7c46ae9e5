/**
 * The page's state and its event handlers as pure transitions.
 *
 * A `PageState` holds what the handlers of the page read and write: which of
 * the three output panels is displayed, whether the generate button is
 * disabled, whether the character preview is displayed, the two session
 * images and the browser's local storage. Each handler is one function from
 * the state before to the state after; `Step` and `Run` put them together.
 */
module Flow {
  import opened Wrappers
  import opened Text

  /** Key of the one storage slot the page uses. */
  const StorageKey := "bananaStudio_defaultCharacter"
  /** A selected file is accepted when its MIME type starts with this. */
  const ImageMimePrefix := "image/"
  /** File name offered for the generated image. */
  const DownloadFileName := "character_result.png"
  /** Reason reported when the generator answers unsuccessfully without a reason. */
  const DefaultFailureMessage := "이미지 생성에 실패했습니다."

  datatype PageState = PageState(
    initialShown: bool,
    loadingShown: bool,
    resultShown: bool,
    generateDisabled: bool,
    previewShown: bool,
    currentCharacterImage: Option<string>,
    generatedImageData: Option<string>,
    storage: map<string, string>)

  /** A selected file: its MIME type and the data URL a `FileReader` produces for it. */
  datatype File = File(mimeType: string, dataUrl: string)

  /** What the generator resolves to: `{success: true, imageData}` or `{success: false, error}`. */
  datatype GenResult = Success(imageData: string) | Failure(error: string)

  /** How the awaited generator call ends: it resolves, or it throws. */
  datatype Completion = Resolved(result: GenResult) | Rejected(message: string)

  /** What the generate handler decides before any generation starts. */
  datatype GenerateStart = MissingImage | MissingPrompt | Started(image: string, prompt: string)

  /** What the save-default handler reports. */
  datatype SaveOutcome = NothingToSave | Saved | WriteRejected

  /** The link the download handler creates. */
  datatype DownloadLink = DownloadLink(href: string, fileName: string)

  /** JavaScript truthiness of a value that is `null` or a string. */
  predicate Truthy(o: Option<string>) {
    o.Some? && o.value != ""
  }

  function PanelCount(p: PageState): nat {
    (if p.initialShown then 1 else 0) + (if p.loadingShown then 1 else 0) + (if p.resultShown then 1 else 0)
  }

  /** The page's invariant: exactly one panel is displayed, and the button is disabled iff it is the loading one. */
  predicate Valid(p: PageState) {
    PanelCount(p) == 1 && (p.generateDisabled <==> p.loadingShown)
  }

  /** `p` and `q` agree on everything but the panels and the button. */
  predicate SameSession(p: PageState, q: PageState) {
    && p.previewShown == q.previewShown
    && p.currentCharacterImage == q.currentCharacterImage
    && p.generatedImageData == q.generatedImageData
    && p.storage == q.storage
  }

  // ---------------------------------------------------------------- panels

  function ShowInitial(p: PageState): (r: PageState)
    ensures Valid(r) && r.initialShown && !r.generateDisabled
    ensures SameSession(p, r)
  {
    p.(initialShown := true, loadingShown := false, resultShown := false, generateDisabled := false)
  }

  function ShowLoading(p: PageState): (r: PageState)
    ensures Valid(r) && r.loadingShown && r.generateDisabled
    ensures SameSession(p, r)
  {
    p.(initialShown := false, loadingShown := true, resultShown := false, generateDisabled := true)
  }

  function ShowResult(p: PageState): (r: PageState)
    ensures Valid(r) && r.resultShown && !r.generateDisabled
    ensures SameSession(p, r)
  {
    p.(initialShown := false, loadingShown := false, resultShown := true, generateDisabled := false)
  }

  // ---------------------------------------------------------------- page load

  /**
   * The page as the markup presents it before any script runs: the initial
   * panel displayed, the button enabled, no preview and no images.
   */
  function Blank(storage: map<string, string>): (r: PageState)
    ensures Valid(r) && r.initialShown
    ensures r.currentCharacterImage == None && r.generatedImageData == None && r.storage == storage
  {
    PageState(true, false, false, false, false, None, None, storage)
  }

  /**
   * `loadDefaultCharacter`: a non-empty stored default becomes the current
   * image and is previewed; an absent or empty one changes nothing.
   */
  function LoadDefault(p: PageState): (r: PageState)
    ensures var stored := StorageKey in p.storage && p.storage[StorageKey] != "";
      && (stored ==> r == p.(currentCharacterImage := Some(p.storage[StorageKey]), previewShown := true))
      && (!stored ==> r == p)
  {
    if StorageKey in p.storage && p.storage[StorageKey] != "" then
      p.(currentCharacterImage := Some(p.storage[StorageKey]), previewShown := true)
    else
      p
  }

  /** The state once the page has loaded: the markup's state after `loadDefaultCharacter`. */
  function Opened(storage: map<string, string>): (r: PageState)
    ensures Valid(r) && r.initialShown && r.generatedImageData == None && r.storage == storage
    ensures StorageKey in storage && storage[StorageKey] != "" ==> r.currentCharacterImage == Some(storage[StorageKey])
    ensures !(StorageKey in storage && storage[StorageKey] != "") ==> r.currentCharacterImage == None
  {
    LoadDefault(Blank(storage))
  }

  // ---------------------------------------------------------------- character image

  /** The file-change guard: a file must be present and its type must start with `image/`. */
  predicate AcceptsFile(file: Option<File>): (b: bool)
    ensures b <==> file.Some? && |file.value.mimeType| >= |ImageMimePrefix|
                   && file.value.mimeType[..|ImageMimePrefix|] == ImageMimePrefix
  {
    file.Some? && StartsWith(file.value.mimeType, ImageMimePrefix)
  }

  /**
   * The file-change handler followed by the reader's `onload`: an accepted
   * file's data URL becomes the current image and is previewed; anything else
   * changes nothing.
   */
  function ChangeFile(p: PageState, file: Option<File>): (r: PageState)
    ensures AcceptsFile(file) ==> r.currentCharacterImage == Some(file.value.dataUrl) && r.previewShown
    ensures !AcceptsFile(file) ==> r == p
    ensures r.(currentCharacterImage := p.currentCharacterImage, previewShown := p.previewShown) == p
  {
    if AcceptsFile(file) then
      p.(currentCharacterImage := Some(file.value.dataUrl), previewShown := true)
    else
      p
  }

  /**
   * What the save-default handler reports: nothing happens without a current
   * image; otherwise the storage write either succeeds or is rejected.
   */
  function SaveOutcomeOf(p: PageState, writeAccepted: bool): (o: SaveOutcome)
    ensures o == NothingToSave <==> !Truthy(p.currentCharacterImage)
    ensures o == Saved <==> Truthy(p.currentCharacterImage) && writeAccepted
  {
    if !Truthy(p.currentCharacterImage) then NothingToSave
    else if writeAccepted then Saved
    else WriteRejected
  }

  /**
   * The save-default handler. `writeAccepted` is whether `setItem` succeeds;
   * a rejected write throws and leaves the storage as it was.
   */
  function SaveDefault(p: PageState, writeAccepted: bool): (r: PageState)
    ensures Truthy(p.currentCharacterImage) && writeAccepted ==>
      r.storage == p.storage[StorageKey := p.currentCharacterImage.value]
    ensures !(Truthy(p.currentCharacterImage) && writeAccepted) ==> r == p
    ensures r == p.(storage := r.storage)
  {
    if Truthy(p.currentCharacterImage) && writeAccepted then
      p.(storage := p.storage[StorageKey := p.currentCharacterImage.value])
    else
      p
  }

  // ---------------------------------------------------------------- generation

  /**
   * The generate handler's guards, in their order: the current image is checked
   * first, then the trimmed prompt; a start carries the image and the trimmed prompt.
   */
  function Validate(current: Option<string>, promptValue: string): (g: GenerateStart)
    ensures g == MissingImage <==> !Truthy(current)
    ensures g == MissingPrompt <==> Truthy(current) && AllWhitespace(promptValue)
    ensures g.Started? ==> Truthy(current) && g.image == current.value
    ensures g.Started? ==> g.prompt == Trim(promptValue) && g.prompt != []
  {
    TrimEmptyIff(promptValue);
    var prompt := Trim(promptValue);
    if !Truthy(current) then MissingImage
    else if prompt == [] then MissingPrompt
    else Started(current.value, prompt)
  }

  /**
   * The synchronous part of the generate handler: when both guards pass the
   * loading panel is shown and the button disabled; when either fails nothing changes.
   */
  function StartGenerate(p: PageState, promptValue: string): (r: PageState)
    ensures Validate(p.currentCharacterImage, promptValue).Started? ==>
      Valid(r) && r.loadingShown && r.generateDisabled && SameSession(p, r)
    ensures !Validate(p.currentCharacterImage, promptValue).Started? ==> r == p
  {
    if Validate(p.currentCharacterImage, promptValue).Started? then ShowLoading(p) else p
  }

  /** `generateImageWithGemini` as the page has it: a stand-in that answers with the character image itself. */
  function GenerateImageWithGemini(characterImage: string, prompt: string): GenResult {
    Success(characterImage)
  }

  predicate Succeeded(c: Completion) {
    c.Resolved? && c.result.Success?
  }

  /**
   * The continuation of the generate handler once the generator has ended: on
   * success the returned image becomes the generated image and the result panel
   * is shown; on an unsuccessful answer or a thrown error the initial panel is
   * shown again and the generated image is kept. The button is enabled either way.
   */
  function FinishGenerate(p: PageState, c: Completion): (r: PageState)
    ensures Valid(r) && !r.generateDisabled
    ensures Succeeded(c) ==> r.resultShown && r.generatedImageData == Some(c.result.imageData)
    ensures !Succeeded(c) ==> r.initialShown && r.generatedImageData == p.generatedImageData
    ensures r.currentCharacterImage == p.currentCharacterImage
    ensures r.storage == p.storage && r.previewShown == p.previewShown
  {
    if Succeeded(c) then ShowResult(p.(generatedImageData := Some(c.result.imageData)))
    else ShowInitial(p)
  }

  /**
   * The reason the generate handler reports: none on success; a thrown error's
   * own message; for an unsuccessful answer its `error`, or the default reason
   * when that is empty, so an unsuccessful answer is never reported without one.
   */
  function FailureMessage(c: Completion): (m: Option<string>)
    ensures m.None? <==> Succeeded(c)
    ensures c.Rejected? ==> m == Some(c.message)
    ensures c.Resolved? && c.result.Failure? ==> m.Some? && m.value != []
    ensures c.Resolved? && c.result.Failure? && c.result.error != [] ==> m == Some(c.result.error)
    ensures c.Resolved? && c.result.Failure? && c.result.error == [] ==> m == Some(DefaultFailureMessage)
  {
    match c
    case Resolved(Success(_)) => None
    case Resolved(Failure(e)) => Some(if e != "" then e else DefaultFailureMessage)
    case Rejected(message) => Some(message)
  }

  /** The download guard: a link is made only for a non-empty generated image. */
  function DownloadRequest(p: PageState): (d: Option<DownloadLink>)
    ensures d.Some? <==> Truthy(p.generatedImageData)
    ensures d.Some? ==> d.value.href == p.generatedImageData.value && d.value.fileName == DownloadFileName
  {
    if Truthy(p.generatedImageData) then Some(DownloadLink(p.generatedImageData.value, DownloadFileName)) else None
  }

  // ---------------------------------------------------------------- events

  /** The user's actions and the generator's answer, as the page receives them. */
  datatype Event =
    | ClickGenerate(promptValue: string)
    | PromptKey(key: string, shiftKey: bool, promptValue: string)
    | GeneratorDone(completion: Completion)
    | ClickSave(writeAccepted: bool)
    | FileChosen(file: Option<File>)
    | ClickDownload

  /** A press of the generate button: a disabled button dispatches no click. */
  function PressGenerate(p: PageState, promptValue: string): (r: PageState)
    ensures p.generateDisabled ==> r == p
    ensures !p.generateDisabled ==> r == StartGenerate(p, promptValue)
  {
    if p.generateDisabled then p else StartGenerate(p, promptValue)
  }

  /** The prompt's keydown handler: Enter without Shift presses the generate button. */
  function KeyDown(p: PageState, key: string, shiftKey: bool, promptValue: string): (r: PageState)
    ensures key == "Enter" && !shiftKey ==> r == PressGenerate(p, promptValue)
    ensures !(key == "Enter" && !shiftKey) ==> r == p
  {
    if key == "Enter" && !shiftKey then PressGenerate(p, promptValue) else p
  }

  /** The page's reaction to one event: the handler it triggers, or nothing. */
  function Step(p: PageState, e: Event): (r: PageState)
    ensures Valid(p) ==> Valid(r)
  {
    match e
    case ClickGenerate(v) => PressGenerate(p, v)
    case PromptKey(k, shift, v) => KeyDown(p, k, shift, v)
    case GeneratorDone(c) => FinishGenerate(p, c)
    case ClickSave(ok) => SaveDefault(p, ok)
    case FileChosen(f) => ChangeFile(p, f)
    case ClickDownload => p
  }

  function Run(p: PageState, events: seq<Event>): PageState
    decreases |events|
  {
    if events == [] then p else Run(Step(p, events[0]), events[1..])
  }

  // ---------------------------------------------------------------- properties

  /** Every sequence of events from a valid page keeps exactly one panel displayed and the button disabled iff loading. */
  lemma {:induction false} RunKeepsValid(p: PageState, events: seq<Event>)
    requires Valid(p)
    ensures Valid(Run(p, events))
    decreases |events|
  {
    if events != [] {
      RunKeepsValid(Step(p, events[0]), events[1..]);
    }
  }

  /** From page load on, whatever happens, the page's invariant holds. */
  lemma OpenedRunKeepsValid(storage: map<string, string>, events: seq<Event>)
    ensures Valid(Run(Opened(storage), events))
  {
    RunKeepsValid(Opened(storage), events);
  }

  /** The loading panel is entered only by a generate press whose guards both pass. */
  lemma LoadingOnlyAfterGuards(p: PageState, e: Event)
    requires Valid(p) && !p.loadingShown && Step(p, e).loadingShown
    ensures e.ClickGenerate? || (e.PromptKey? && e.key == "Enter" && !e.shiftKey)
    ensures Truthy(p.currentCharacterImage) && !AllWhitespace(e.promptValue)
  {
  }

  /** While loading, neither a button press nor Enter in the prompt starts anything. */
  lemma NoReentryWhileLoading(p: PageState, e: Event)
    requires Valid(p) && p.loadingShown
    requires e.ClickGenerate? || e.PromptKey?
    ensures Step(p, e) == p
  {
  }

  /** Some event of the run is a successful answer carrying `image`. */
  predicate Delivered(events: seq<Event>, image: string) {
    exists i :: 0 <= i < |events| && events[i] == GeneratorDone(Resolved(Success(image)))
  }

  /**
   * Once loading, the page stays loading until the generator answers: events
   * other than an answer change at most the storage, the current image and the
   * preview, never the panels, the button or the generated image.
   */
  lemma {:induction false} StaysLoadingUntilAnswer(p: PageState, events: seq<Event>)
    requires Valid(p) && p.loadingShown
    requires forall i :: 0 <= i < |events| ==> !events[i].GeneratorDone?
    ensures var q := Run(p, events);
      q == p.(storage := q.storage, currentCharacterImage := q.currentCharacterImage, previewShown := q.previewShown)
    decreases |events|
  {
    if events != [] {
      var p' := Step(p, events[0]);
      assert !events[0].GeneratorDone?;
      assert p'.loadingShown && Valid(p');
      assert forall i :: 0 <= i < |events[1..]| ==> events[1..][i] == events[i + 1];
      StaysLoadingUntilAnswer(p', events[1..]);
    }
  }

  /** Only a successful answer changes the generated image, and it sets it to the answer's image. */
  lemma StepGenerated(p: PageState, e: Event)
    ensures var r := Step(p, e);
      r.generatedImageData == p.generatedImageData
      || (r.generatedImageData.Some? && e == GeneratorDone(Resolved(Success(r.generatedImageData.value))))
  {
  }

  /** A generated image that is present was delivered by a successful answer in the run, or was there before it. */
  lemma {:induction false} GeneratedImageComesFromGenerator(p: PageState, events: seq<Event>)
    ensures var q := Run(p, events);
      q.generatedImageData == p.generatedImageData || (q.generatedImageData.Some? && Delivered(events, q.generatedImageData.value))
    decreases |events|
  {
    if events != [] {
      var p' := Step(p, events[0]);
      var q := Run(p', events[1..]);
      assert Run(p, events) == q;
      StepGenerated(p, events[0]);
      GeneratedImageComesFromGenerator(p', events[1..]);
      if q.generatedImageData != p'.generatedImageData {
        var i :| 0 <= i < |events[1..]| && events[1..][i] == GeneratorDone(Resolved(Success(q.generatedImageData.value)));
        assert events[i + 1] == events[1..][i];
      } else if q.generatedImageData != p.generatedImageData {
        assert events[0] == GeneratorDone(Resolved(Success(q.generatedImageData.value)));
      }
    }
  }

  /**
   * With the page's stand-in generator, a generation that starts ends on the
   * result panel showing the current character image, with the button enabled.
   */
  lemma StubShowsCharacter(p: PageState, promptValue: string)
    requires Truthy(p.currentCharacterImage) && !AllWhitespace(promptValue)
    ensures var g := Validate(p.currentCharacterImage, promptValue);
      var q := FinishGenerate(StartGenerate(p, promptValue), Resolved(GenerateImageWithGemini(g.image, g.prompt)));
      q.resultShown && !q.generateDisabled && q.generatedImageData == p.currentCharacterImage
      && q.currentCharacterImage == p.currentCharacterImage && q.storage == p.storage
  {
  }

  /** A failed generation leaves both images as they were before the press. */
  lemma FailedGenerationKeepsImages(p: PageState, promptValue: string, c: Completion)
    requires !Succeeded(c)
    ensures var q := FinishGenerate(PressGenerate(p, promptValue), c);
      q.initialShown && q.generatedImageData == p.generatedImageData
      && q.currentCharacterImage == p.currentCharacterImage
  {
  }

  /**
   * Saving the current image and loading the default later restores it, even
   * when another file was chosen in between.
   */
  lemma SaveThenLoadRoundTrip(p: PageState, file: Option<File>)
    requires Truthy(p.currentCharacterImage)
    ensures LoadDefault(SaveDefault(p, true)).currentCharacterImage == p.currentCharacterImage
    ensures LoadDefault(ChangeFile(SaveDefault(p, true), file)).currentCharacterImage == p.currentCharacterImage
  {
  }

  /** A rejected write or a missing image saves nothing: the previous default is what loading finds. */
  lemma FailedSaveKeepsDefault(p: PageState, writeAccepted: bool)
    requires !(Truthy(p.currentCharacterImage) && writeAccepted)
    ensures LoadDefault(SaveDefault(p, writeAccepted)) == LoadDefault(p)
  {
  }

  /** A page reopened on the storage of an earlier session finds the character saved there. */
  lemma SavedDefaultSurvivesReload(p: PageState)
    requires Truthy(p.currentCharacterImage)
    ensures Opened(SaveDefault(p, true).storage).currentCharacterImage == p.currentCharacterImage
  {
  }
}
