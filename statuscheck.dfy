/** components/StatusCheck.tsx: the photo-analysis form. */
module StatusCheck {
  import opened Wrappers
  import opened GeminiService
  import opened ImageEditor

  const NO_FILE_ERROR := "Lütfen analiz için bir fotoğraf seçin."
  const DEFAULT_PROMPT := "Lütfen bu fotoğrafı analiz et."
  const ANALYSIS_ERROR := "Fotoğraf analizi sırasında bir hata oluştu. Lütfen tekrar deneyin."

  /** A request made to `analyzeImage`. */
  datatype AnalysisRequest = AnalysisRequest(image: InlineImage, prompt: string)

  /** `prompt || "Lütfen bu fotoğrafı analiz et."`: the user's prompt as
      typed, or the default one exactly when the prompt is empty. A
      white-space-only prompt is sent as it is. */
  function PromptToSend(prompt: string): (sent: string)
    ensures sent != ""
    ensures prompt != "" ==> sent == prompt
    ensures prompt == "" ==> sent == DEFAULT_PROMPT
  {
    if prompt != "" then prompt else DEFAULT_PROMPT
  }

  /** The analysis form's state. */
  class Check {
    var imageFile: Option<File>
    var imagePreview: Option<string>
    var prompt: string
    var isLoading: bool
    var analysisResult: string
    var error: string
    /** The calls made to `analyzeImage`, oldest first. */
    ghost var requests: seq<AnalysisRequest>

    constructor ()
      ensures imageFile == None && imagePreview == None && prompt == ""
      ensures !isLoading && analysisResult == "" && error == "" && requests == []
    {
      imageFile, imagePreview, prompt := None, None, "";
      isLoading, analysisResult, error := false, "", "";
      requests := [];
    }

    /** The prompt field's change handler. */
    method SetPrompt(value: string)
      modifies this
      ensures prompt == value
      ensures imageFile == old(imageFile) && imagePreview == old(imagePreview) && isLoading == old(isLoading)
      ensures analysisResult == old(analysisResult) && error == old(error) && requests == old(requests)
    {
      prompt := value;
    }

    /** The submit button is disabled exactly while a request is in flight
        or while no file is chosen; the prompt is optional. */
    function SubmitDisabled(): (disabled: bool)
      reads this
      ensures !disabled <==> !isLoading && imageFile.Some?
    {
      isLoading || imageFile.None?
    }

    /** The file input's change handler; `previewUrl` stands for the object
        URL the browser makes for the file. An empty selection changes
        nothing. */
    method HandleFileChange(selected: Option<File>, previewUrl: string)
      modifies this
      ensures selected.None? ==> unchanged(this)
      ensures selected.Some? ==>
        && imageFile == selected && imagePreview == Some(previewUrl)
        && analysisResult == "" && error == ""
        && prompt == old(prompt) && isLoading == old(isLoading) && requests == old(requests)
    {
      if selected.Some? {
        imageFile := selected;
        imagePreview := Some(previewUrl);
        analysisResult := "";
        error := "";
      }
    }

    /** The synchronous start of `handleSubmit`: without a file it sets the
        "choose a photo" error and stops; otherwise it raises the loading
        flag and clears the error and the previous result. */
    method BeginSubmit() returns (go: bool)
      modifies this
      ensures go == imageFile.Some?
      ensures imageFile == old(imageFile) && imagePreview == old(imagePreview)
      ensures prompt == old(prompt) && requests == old(requests)
      ensures !go ==> error == NO_FILE_ERROR && isLoading == old(isLoading) && analysisResult == old(analysisResult)
      ensures go ==> isLoading && error == "" && analysisResult == ""
    {
      if imageFile.None? {
        error := NO_FILE_ERROR;
        return false;
      }
      go := true;
      isLoading := true;
      error := "";
      analysisResult := "";
    }

    /** The rest of `handleSubmit`, for the `file` and `text` captured at
        submission: `read` is the file reader's data URL (`None` when it
        failed) and `reply` the text `analyzeImage` resolved with, or its
        rejection. */
    method FinishSubmit(file: File, text: string, read: Option<string>, reply: Reply<string>)
      modifies this
      ensures !isLoading
      ensures imageFile == old(imageFile) && imagePreview == old(imagePreview) && prompt == old(prompt)
      ensures read.None? ==> requests == old(requests)
      ensures read.Some? ==>
        requests == old(requests) + [AnalysisRequest(InlineImage(file.mimeType, Base64Payload(read.value)), PromptToSend(text))]
      ensures read.Some? && reply.Resolved? ==> analysisResult == reply.value && error == old(error)
      ensures read.None? || reply.Rejected? ==> analysisResult == old(analysisResult) && error == ANALYSIS_ERROR
    {
      match read {
      case None =>
        error := ANALYSIS_ERROR;
      case Some(dataUrl) =>
        requests := requests + [AnalysisRequest(InlineImage(file.mimeType, Base64Payload(dataUrl)), PromptToSend(text))];
        match reply {
        case Resolved(answer) =>
          analysisResult := answer;
        case Rejected =>
          error := ANALYSIS_ERROR;
        }
      }
      isLoading := false;
    }

    /** `handleSubmit`. When a file is chosen it ends with the loading flag
        down and either the answer with no error, or the fixed error with
        no answer. A click on the enabled button always gets past the guard
        and, once the file is read, sends exactly one request; while the
        button is disabled for want of a file, the handler sends nothing. */
    method HandleSubmit(read: Option<string>, reply: Reply<string>)
      modifies this
      ensures !old(SubmitDisabled()) ==>
        && error != NO_FILE_ERROR && !isLoading
        && (read.Some? ==> |requests| == |old(requests)| + 1)
      ensures old(SubmitDisabled()) && !old(isLoading) ==> error == NO_FILE_ERROR && requests == old(requests)
      ensures imageFile == old(imageFile) && imagePreview == old(imagePreview) && prompt == old(prompt)
      ensures old(imageFile).None? ==>
        && error == NO_FILE_ERROR && isLoading == old(isLoading)
        && analysisResult == old(analysisResult) && requests == old(requests)
      ensures old(imageFile).Some? ==>
        && !isLoading
        && (read.Some? && reply.Resolved? ==> analysisResult == reply.value && error == "")
        && (read.None? || reply.Rejected? ==> analysisResult == "" && error == ANALYSIS_ERROR)
        && (read.Some? ==> requests == old(requests) + [AnalysisRequest(
              InlineImage(old(imageFile).value.mimeType, Base64Payload(read.value)), PromptToSend(old(prompt)))])
    {
      var go := BeginSubmit();
      if go {
        FinishSubmit(imageFile.value, prompt, read, reply);
      }
    }
  }
}
