/**
 * The state of the photo editor modal: the prompt, the preview, the error and the
 * in-flight flag, changed by its handlers. The asynchronous handleGenerate is split at
 * its await into BeginGenerate and FinishGenerate; Generate runs both around the edit call.
 */
module PhotoEditor {
  import opened Types
  import opened JsStrings
  import GeminiService
  import PostcardStore

  const ProcessFailedMessage := "Failed to process image. Please try a different prompt."

  /** An entry of the preset tables: clicking it copies its prompt. */
  datatype PresetStyle = PresetStyle(displayLabel: string, prompt: string, description: string)

  /** A call the modal makes to its parent through the onSave and onClose props. */
  datatype ParentCall = OnSave(id: string, newData: string) | OnClose

  /** What the edit call is asked for when handleGenerate passes its guard. */
  datatype EditJob = EditJob(source: string, prompt: string)

  class PhotoEditorModal {
    /** The `image` prop: the parent passes the entry's current value on every render. */
    var image: ImageAsset
    var prompt: string
    var isGenerating: bool
    var previewUrl: string
    var error: Option<string>
    /** The calls made to the parent so far, oldest first. */
    var parentCalls: seq<ParentCall>

    /** The initial state: empty prompt, preview of the image's current payload, no error. */
    constructor (image: ImageAsset)
      ensures this.image == image
      ensures prompt == "" && !isGenerating && previewUrl == image.currentData && error == None
      ensures parentCalls == []
    {
      this.image := image;
      prompt := "";
      isGenerating := false;
      previewUrl := image.currentData;
      error := None;
      parentCalls := [];
    }

    /** The "Changes Applied" badge shows. */
    predicate ChangesApplied()
      reads this
    {
      previewUrl != image.originalData && !isGenerating
    }

    /** The GO button is disabled (`!prompt || isGenerating`). */
    predicate GoDisabled()
      reads this
    {
      prompt == "" || isGenerating
    }

    /**
     * handleGenerate up to its await: a prompt that trims to nothing changes nothing;
     * otherwise generation starts, the error is cleared, and the image's current payload
     * (not the preview) is sent with the prompt.
     */
    method BeginGenerate() returns (job: Option<EditJob>)
      modifies this
      ensures Trim(old(prompt)) == "" ==> job == None && unchanged(this)
      ensures Trim(old(prompt)) != "" ==>
        && job == Some(EditJob(image.currentData, old(prompt)))
        && isGenerating && error == None
        && prompt == old(prompt) && previewUrl == old(previewUrl) && parentCalls == old(parentCalls)
      ensures image == old(image)
    {
      if Trim(prompt) == "" {
        return None;
      }
      isGenerating := true;
      error := None;
      return Some(EditJob(image.currentData, prompt));
    }

    /**
     * handleGenerate after its await: a result replaces the preview, a failure sets the fixed
     * message and keeps the preview; generation is over either way.
     */
    method FinishGenerate(outcome: Outcome<string>)
      modifies this
      ensures outcome.Ok? ==> previewUrl == outcome.value && error == old(error)
      ensures outcome.Err? ==> previewUrl == old(previewUrl) && error == Some(ProcessFailedMessage)
      ensures !isGenerating && prompt == old(prompt) && parentCalls == old(parentCalls) && image == old(image)
      ensures ChangesApplied() <==> previewUrl != image.originalData
    {
      if outcome.Ok? {
        previewUrl := outcome.value;
      } else {
        error := Some(ProcessFailedMessage);
      }
      isGenerating := false;
    }

    /** handleGenerate end to end, with the edit call made through the service. */
    method Generate(apiKey: Option<string>, send: GeminiService.Request -> GeminiService.Reply)
      modifies this
      ensures Trim(old(prompt)) == "" ==> unchanged(this)
      ensures image == old(image)
      ensures Trim(old(prompt)) != "" ==>
        var outcome := GeminiService.EditOutcome(apiKey, image.currentData, old(prompt), send);
        && !isGenerating && prompt == old(prompt) && parentCalls == old(parentCalls)
        && (outcome.Ok? ==> previewUrl == outcome.value && error == None)
        && (outcome.Err? ==> previewUrl == old(previewUrl) && error == Some(ProcessFailedMessage))
    {
      var job := BeginGenerate();
      if job.Some? {
        var outcome := GeminiService.EditImageWithGemini(apiKey, job.value.source, job.value.prompt, send);
        FinishGenerate(outcome);
      }
    }

    /** handleApply: onSave with the image's id and the preview, then onClose. */
    method Apply()
      modifies this
      ensures parentCalls == old(parentCalls) + [OnSave(image.id, previewUrl), OnClose]
      ensures prompt == old(prompt) && previewUrl == old(previewUrl) && error == old(error)
      ensures isGenerating == old(isGenerating) && image == old(image)
    {
      parentCalls := parentCalls + [OnSave(image.id, previewUrl)];
      parentCalls := parentCalls + [OnClose];
    }

    /**
     * handleReset: back to the original payload with an empty prompt and no error. The new
     * state depends only on the image, so resetting twice is resetting once.
     */
    method Reset()
      modifies this
      ensures previewUrl == image.originalData && prompt == "" && error == None
      ensures isGenerating == old(isGenerating) && parentCalls == old(parentCalls) && image == old(image)
      ensures !ChangesApplied()
    {
      previewUrl := image.originalData;
      prompt := "";
      error := None;
    }

    /** The prompt text area. */
    method SetPrompt(p: string)
      modifies this
      ensures prompt == p
      ensures image == old(image) && isGenerating == old(isGenerating) && previewUrl == old(previewUrl)
      ensures error == old(error) && parentCalls == old(parentCalls)
    {
      prompt := p;
    }

    /**
     * The parent re-renders with the entry's new value, for instance when the file read of an
     * open placeholder completes. The preview was only initialised from the first value, so it
     * stays, and the badge then compares it against the new original payload.
     */
    method SetImage(img: ImageAsset)
      modifies this
      ensures image == img
      ensures prompt == old(prompt) && isGenerating == old(isGenerating) && previewUrl == old(previewUrl)
      ensures error == old(error) && parentCalls == old(parentCalls)
      ensures ChangesApplied() <==> previewUrl != img.originalData && !isGenerating
    {
      image := img;
    }

    /** handlePresetClick: copies the preset's prompt and nothing else. */
    method PresetClick(preset: PresetStyle)
      modifies this
      ensures prompt == preset.prompt
      ensures image == old(image) && isGenerating == old(isGenerating) && previewUrl == old(previewUrl) && error == old(error)
      ensures parentCalls == old(parentCalls)
    {
      prompt := preset.prompt;
    }
  }

  /** A prompt of whitespace only enables GO (`!prompt` is false) but trims to nothing, so the handler returns. */
  lemma WhitespacePromptIsIgnored(modal: PhotoEditorModal)
    requires |modal.prompt| > 0 && AllTrimmable(modal.prompt) && !modal.isGenerating
    ensures !modal.GoDisabled() && Trim(modal.prompt) == ""
  {
    TrimEmptyIffAllTrimmable(modal.prompt);
  }

  /**
   * The parent wires onSave to the store's saved-edit handler: the OnSave call that Apply
   * records puts its payload into the entry it names, as the current payload only, while the
   * original payload, name and flag stay.
   */
  lemma AppliedPreviewReachesStore(s: seq<ImageAsset>, call: ParentCall)
    requires call.OnSave? && PostcardStore.HasId(s, call.id)
    ensures var r := PostcardStore.SavedEdit(s, call.id, call.newData);
      var k := PostcardStore.IndexOf(s, call.id);
      && r[k].id == call.id && r[k].currentData == call.newData
      && r[k].originalData == s[k].originalData && r[k].name == s[k].name && r[k].isProcessing == s[k].isProcessing
  {
  }
}
