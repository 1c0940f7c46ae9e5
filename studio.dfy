/**
 * The page as an object: the two session globals, the panel and button
 * display flags, the preview flag and the local storage are fields, and each
 * event handler is a method that updates them in place, as the page's script
 * does. Every method states its new state through the matching transition of
 * `Flow`, so the properties proved there hold of the object too.
 */
module App {
  import opened Wrappers
  import opened Text
  import opened Flow

  class Studio {
    var initialShown: bool
    var loadingShown: bool
    var resultShown: bool
    var generateDisabled: bool
    var previewShown: bool
    var currentCharacterImage: Option<string>
    var generatedImageData: Option<string>
    var storage: map<string, string>

    /** The object's fields as a value. */
    function State(): PageState
      reads this
    {
      PageState(initialShown, loadingShown, resultShown, generateDisabled, previewShown,
                currentCharacterImage, generatedImageData, storage)
    }

    predicate Valid()
      reads this
    {
      Flow.Valid(State())
    }

    /** Page load on the given storage: the markup's initial state, then `loadDefaultCharacter`. */
    constructor (stored: map<string, string>)
      ensures State() == Opened(stored) && Valid()
    {
      initialShown, loadingShown, resultShown := true, false, false;
      generateDisabled, previewShown := false, false;
      currentCharacterImage, generatedImageData := None, None;
      storage := stored;
      new;
      LoadDefaultCharacter();
    }

    method ShowInitialState()
      modifies this
      ensures State() == ShowInitial(old(State())) && Valid()
    {
      initialShown := true;
      loadingShown := false;
      resultShown := false;
      generateDisabled := false;
    }

    method ShowLoadingState()
      modifies this
      ensures State() == ShowLoading(old(State())) && Valid()
    {
      initialShown := false;
      loadingShown := true;
      resultShown := false;
      generateDisabled := true;
    }

    method ShowResultState()
      modifies this
      ensures State() == ShowResult(old(State())) && Valid()
    {
      initialShown := false;
      loadingShown := false;
      resultShown := true;
      generateDisabled := false;
    }

    method LoadDefaultCharacter()
      modifies this
      ensures State() == LoadDefault(old(State()))
      ensures old(Valid()) ==> Valid()
    {
      if StorageKey in storage {
        var saved := storage[StorageKey];
        if saved != "" {
          currentCharacterImage := Some(saved);
          previewShown := true;
        }
      }
    }

    /** The file-change handler together with the reader's `onload`; `accepted` is false where the page alerts instead. */
    method OnFileChange(file: Option<File>) returns (accepted: bool)
      modifies this
      ensures accepted == AcceptsFile(file)
      ensures State() == ChangeFile(old(State()), file)
      ensures old(Valid()) ==> Valid()
    {
      accepted := file.Some? && StartsWith(file.value.mimeType, ImageMimePrefix);
      if accepted {
        currentCharacterImage := Some(file.value.dataUrl);
        previewShown := true;
      }
    }

    /** The save-default handler; `writeAccepted` is whether `setItem` succeeds. */
    method OnSaveDefaultClick(writeAccepted: bool) returns (outcome: SaveOutcome)
      modifies this
      ensures outcome == SaveOutcomeOf(old(State()), writeAccepted)
      ensures State() == SaveDefault(old(State()), writeAccepted)
      ensures old(Valid()) ==> Valid()
    {
      outcome := NothingToSave;
      if Truthy(currentCharacterImage) {
        if writeAccepted {
          storage := storage[StorageKey := currentCharacterImage.value];
          outcome := Saved;
        } else {
          outcome := WriteRejected;
        }
      }
    }

    /**
     * The generate click handler up to the awaited call: the guards, then the
     * loading state. A `Started` result is the request the generator receives.
     */
    method OnGenerateClick(promptValue: string) returns (start: GenerateStart)
      modifies this
      ensures start == Validate(old(currentCharacterImage), promptValue)
      ensures State() == StartGenerate(old(State()), promptValue)
      ensures old(Valid()) ==> Valid()
    {
      var prompt := Trim(promptValue);
      TrimEmptyIff(promptValue);
      if !Truthy(currentCharacterImage) {
        return MissingImage;
      }
      if prompt == [] {
        return MissingPrompt;
      }
      ShowLoadingState();
      start := Started(currentCharacterImage.value, prompt);
    }

    /** The generate click handler after the awaited call; `error` is the reason the page alerts. */
    method CompleteGenerate(completion: Completion) returns (error: Option<string>)
      modifies this
      ensures error == FailureMessage(completion)
      ensures State() == FinishGenerate(old(State()), completion) && Valid()
    {
      if completion.Resolved? && completion.result.Success? {
        generatedImageData := Some(completion.result.imageData);
        ShowResultState();
        error := None;
      } else {
        error := FailureMessage(completion);
        ShowInitialState();
      }
    }

    /**
     * The whole generate click handler with the page's stand-in generator:
     * a started generation ends on the result panel with the character image.
     */
    method Generate(promptValue: string) returns (start: GenerateStart, error: Option<string>)
      modifies this
      ensures start == Validate(old(currentCharacterImage), promptValue)
      ensures !start.Started? ==> State() == old(State()) && error == None
      ensures start.Started? ==> resultShown && !generateDisabled && Valid() && error == None
      ensures start.Started? ==> generatedImageData == old(currentCharacterImage)
      ensures currentCharacterImage == old(currentCharacterImage) && storage == old(storage)
      ensures previewShown == old(previewShown)
      ensures start.Started? ==> State() == FinishGenerate(StartGenerate(old(State()), promptValue),
                                                          Resolved(GenerateImageWithGemini(start.image, start.prompt)))
    {
      start := OnGenerateClick(promptValue);
      error := None;
      if start.Started? {
        var result := GenerateImageWithGemini(start.image, start.prompt);
        error := CompleteGenerate(Resolved(result));
      }
    }

    /** A press of the generate button: a disabled button dispatches no click. */
    method PressGenerateButton(promptValue: string) returns (start: Option<GenerateStart>)
      modifies this
      ensures old(generateDisabled) <==> start.None?
      ensures start.Some? ==> start.value == Validate(old(currentCharacterImage), promptValue)
      ensures State() == Step(old(State()), ClickGenerate(promptValue))
      ensures old(Valid()) ==> Valid()
    {
      if generateDisabled {
        return None;
      }
      var s := OnGenerateClick(promptValue);
      start := Some(s);
    }

    /** The prompt's keydown handler: Enter without Shift presses the generate button. */
    method OnPromptKeyDown(key: string, shiftKey: bool, promptValue: string) returns (start: Option<GenerateStart>)
      modifies this
      ensures start.Some? ==> key == "Enter" && !shiftKey && !old(generateDisabled)
      ensures key == "Enter" && !shiftKey && !old(generateDisabled) ==> start.Some?
      ensures State() == Step(old(State()), PromptKey(key, shiftKey, promptValue))
      ensures old(Valid()) ==> Valid()
    {
      start := None;
      if key == "Enter" && !shiftKey {
        start := PressGenerateButton(promptValue);
      }
    }

    /** The download handler: the link it would create, if any. */
    method OnDownloadClick() returns (link: Option<DownloadLink>)
      ensures link.Some? <==> Truthy(generatedImageData)
      ensures link.Some? ==> link.value == DownloadLink(generatedImageData.value, DownloadFileName)
      ensures link == DownloadRequest(State())
    {
      link := None;
      if Truthy(generatedImageData) {
        link := Some(DownloadLink(generatedImageData.value, DownloadFileName));
      }
    }
  }

  /**
   * A session on a browser whose storage holds a saved default character:
   * on a non-empty prompt the page generates and shows that character.
   */
  method SavedCharacterSession(saved: string, promptValue: string) returns (shown: Option<string>, onResult: bool)
    requires saved != "" && !AllWhitespace(promptValue)
    ensures shown == Some(saved) && onResult
  {
    var page := new Studio(map[StorageKey := saved]);
    var start, error := page.Generate(promptValue);
    shown, onResult := page.generatedImageData, page.resultShown;
  }
}
