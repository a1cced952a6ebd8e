/**
 * The state of the image generator panel: prompt, size, error and the in-flight flag.
 * The asynchronous handleGenerate is split at its await into BeginGenerate and
 * FinishGenerate; Generate runs both around the generation call. Whether the key picker
 * of the hosting page exists is the boolean `pickerPresent`.
 */
module ImageGenerator {
  import opened Types
  import opened JsStrings
  import GeminiService

  const StaleKeyText := "Requested entity was not found"
  const ApiKeyIssueMessage := "API Key issue detected. Please try again."
  const GenerateFailedMessage := "Failed to generate image. Try a simpler prompt."

  /** The aspect ratio requested for the postcard's orientation. */
  function AspectRatioFor(orientation: Orientation): (r: GeminiService.AspectRatio)
    ensures r == GeminiService.Ratio16x9 <==> orientation.Landscape?
    ensures r == GeminiService.Ratio9x16 <==> orientation.Portrait?
  {
    if orientation == Landscape then GeminiService.Ratio16x9 else GeminiService.Ratio9x16
  }

  /** The message shown for a failed generation, chosen from the error's message. */
  function ClassifyError(message: string, pickerPresent: bool): (shown: string)
    ensures shown == ApiKeyIssueMessage <==> Contains(message, StaleKeyText) && pickerPresent
    ensures shown == GenerateFailedMessage <==> !(Contains(message, StaleKeyText) && pickerPresent)
  {
    if Contains(message, StaleKeyText) && pickerPresent then ApiKeyIssueMessage else GenerateFailedMessage
  }

  /** The missing-key message, cut in two literals short enough to inspect character by character. */
  lemma MissingKeyMessageHalves()
    ensures GeminiService.MissingKeyMessage == "API Key is missing. " + "Please set process.env.API_KEY."
  {
  }

  /** Neither half of the missing-key message holds a capital R. */
  lemma MissingKeyHalvesLackR()
    ensures 'R' !in "API Key is missing. " + "Please set process.env.API_KEY."
  {
    assert 'R' !in "API Key is missing. " && 'R' !in "Please set process.env.API_KEY.";
  }

  /** The missing-key message does not contain the stale-key text. */
  lemma MissingKeyMessageNotStale()
    ensures !Contains(GeminiService.MissingKeyMessage, StaleKeyText)
  {
    MissingKeyMessageHalves();
    MissingKeyHalvesLackR();
    assert StaleKeyText[0] == 'R';
    NotContainsWithoutFirstChar(GeminiService.MissingKeyMessage, StaleKeyText);
  }

  /** The service's own failures never look like a stale key, so they always get the generic message. */
  lemma ServiceFailuresAreGeneric(pickerPresent: bool)
    ensures ClassifyError(GeminiService.MissingKeyMessage, pickerPresent) == GenerateFailedMessage
    ensures ClassifyError(GeminiService.NoGeneratedImageMessage, pickerPresent) == GenerateFailedMessage
  {
    MissingKeyMessageNotStale();
    assert |GeminiService.NoGeneratedImageMessage| < |StaleKeyText|;
  }

  /** What the generation call is asked for when handleGenerate passes its guard. */
  datatype GenerateJob = GenerateJob(prompt: string, size: GeminiService.ImageSize, aspectRatio: GeminiService.AspectRatio)

  /** One call of the onImageGenerated prop. */
  datatype Generated = Generated(base64: string, prompt: string)

  class ImageGeneratorPanel {
    /** The `orientation` prop: the parent passes its current value on every render. */
    var orientation: Orientation
    var prompt: string
    var size: GeminiService.ImageSize
    var isGenerating: bool
    var error: Option<string>
    /** The calls made to onImageGenerated so far, oldest first. */
    var generated: seq<Generated>

    constructor (orientation: Orientation)
      ensures this.orientation == orientation
      ensures prompt == "" && size == GeminiService.Size1K && !isGenerating && error == None && generated == []
    {
      this.orientation := orientation;
      prompt := "";
      size := GeminiService.Size1K;
      isGenerating := false;
      error := None;
      generated := [];
    }

    /** The GO button is disabled (`!prompt || isGenerating`): no trimming here. */
    predicate GoDisabled()
      reads this
    {
      prompt == "" || isGenerating
    }

    /** The size buttons. */
    method SetSize(s: GeminiService.ImageSize)
      modifies this
      ensures size == s && orientation == old(orientation)
      ensures prompt == old(prompt) && isGenerating == old(isGenerating) && error == old(error)
      ensures generated == old(generated)
    {
      size := s;
    }

    /** The parent re-renders with another orientation while the panel stays mounted. */
    method SetOrientation(o: Orientation)
      modifies this
      ensures orientation == o
      ensures prompt == old(prompt) && size == old(size) && isGenerating == old(isGenerating)
      ensures error == old(error) && generated == old(generated)
    {
      orientation := o;
    }

    /** The prompt text area. */
    method SetPrompt(p: string)
      modifies this
      ensures prompt == p && orientation == old(orientation)
      ensures size == old(size) && isGenerating == old(isGenerating) && error == old(error)
      ensures generated == old(generated)
    {
      prompt := p;
    }

    /**
     * handleGenerate up to its await: a prompt that trims to nothing changes nothing;
     * otherwise the error is cleared, generation starts, and the current prompt, size and
     * the orientation's aspect ratio are sent.
     */
    method BeginGenerate() returns (job: Option<GenerateJob>)
      modifies this
      ensures Trim(old(prompt)) == "" ==> job == None && unchanged(this)
      ensures Trim(old(prompt)) != "" ==>
        && job == Some(GenerateJob(old(prompt), old(size), AspectRatioFor(orientation)))
        && isGenerating && error == None
        && prompt == old(prompt) && size == old(size) && generated == old(generated)
      ensures orientation == old(orientation)
    {
      if Trim(prompt) == "" {
        return None;
      }
      error := None;
      isGenerating := true;
      var aspectRatio := AspectRatioFor(orientation);
      return Some(GenerateJob(prompt, size, aspectRatio));
    }

    /**
     * handleGenerate after its await: a result is handed to the parent with the prompt it was
     * generated from and the prompt box is cleared; a failure sets the classified message.
     */
    method FinishGenerate(job: GenerateJob, outcome: Outcome<string>, pickerPresent: bool)
      modifies this
      ensures outcome.Ok? ==>
        && generated == old(generated) + [Generated(outcome.value, job.prompt)]
        && prompt == "" && error == old(error)
      ensures outcome.Err? ==>
        && generated == old(generated) && prompt == old(prompt)
        && error == Some(ClassifyError(outcome.message, pickerPresent))
      ensures !isGenerating && size == old(size) && orientation == old(orientation)
    {
      if outcome.Ok? {
        generated := generated + [Generated(outcome.value, job.prompt)];
        prompt := "";
      } else {
        error := Some(ClassifyError(outcome.message, pickerPresent));
      }
      isGenerating := false;
    }

    /** handleGenerate end to end, with the generation call made through the service. */
    method Generate(apiKey: Option<string>, pickerPresent: bool, send: GeminiService.Request -> GeminiService.Reply)
      modifies this
      ensures Trim(old(prompt)) == "" ==> unchanged(this)
      ensures orientation == old(orientation)
      ensures Trim(old(prompt)) != "" ==>
        var outcome := GeminiService.GenerateOutcome(apiKey, old(prompt), old(size), AspectRatioFor(orientation), send);
        && !isGenerating && size == old(size)
        && (outcome.Ok? ==> generated == old(generated) + [Generated(outcome.value, old(prompt))]
                            && prompt == "" && error == None)
        && (outcome.Err? ==> generated == old(generated) && prompt == old(prompt)
                             && error == Some(ClassifyError(outcome.message, pickerPresent)))
    {
      var job := BeginGenerate();
      if job.Some? {
        var j := job.value;
        var outcome := GeminiService.GenerateImageWithGemini(apiKey, j.prompt, j.size, j.aspectRatio, send);
        FinishGenerate(j, outcome, pickerPresent);
      }
    }
  }

  /** A prompt of whitespace only enables GO (`!prompt` is false) but trims to nothing, so the handler returns. */
  lemma WhitespacePromptIsIgnored(panel: ImageGeneratorPanel)
    requires |panel.prompt| > 0 && AllTrimmable(panel.prompt) && !panel.isGenerating
    ensures !panel.GoDisabled() && Trim(panel.prompt) == ""
  {
    TrimEmptyIffAllTrimmable(panel.prompt);
  }
}
