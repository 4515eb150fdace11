/** components/ImageEditor.tsx: the photo-editor form and the data-URL
    payload extraction of its `fileToBase64`. */
module ImageEditor {
  import opened Wrappers
  import opened JsString
  import opened GeminiService

  const VALIDATION_ERROR := "Lütfen bir fotoğraf seçin ve bir düzenleme komutu girin."
  const NO_IMAGE_ERROR := "Görsel düzenlenemedi. Lütfen farklı bir komutla tekrar deneyin."
  const FAILURE_ERROR := "Görsel düzenlenirken bir hata oluştu. Lütfen tekrar deneyin."
  const PNG_DATA_URL_PREFIX := "data:image/png;base64,"

  /** A file chosen in the file input; only its MIME `type` is read. */
  datatype File = File(mimeType: string)

  /** A request made to `editImage`. */
  datatype EditRequest = EditRequest(image: InlineImage, prompt: string)

  /** `result.split(',')[1]` on the data URL the file reader produced:
      the text between the first comma and the next one (or the end), and
      `undefined` when there is no comma. */
  function Base64Payload(dataUrl: string): (payload: Option<string>)
    ensures payload.None? <==> ',' !in dataUrl
    ensures payload.Some? ==> ',' !in payload.value
  {
    SplitSingleIffAbsent(dataUrl, ',');
    var parts := Split(dataUrl, ',');
    if |parts| > 1 then Some(parts[1]) else None
  }

  /** For a data URL `header,body` (neither part holding a comma), possibly
      followed by a further comma and anything, the payload is `body`. */
  lemma PayloadAfterHeader(header: string, body: string, rest: string)
    requires ',' !in header && ',' !in body
    requires rest == [] || rest[0] == ','
    ensures Base64Payload(header + [','] + body + rest) == Some(body)
  {
    var url := header + [','] + body + rest;
    assert url == header + ([','] + (body + rest));
    SplitPrefix(header, [','] + (body + rest), ',');
    assert ([','] + (body + rest))[1..] == body + rest;
    SplitPrefix(body, rest, ',');
    var p := Split(rest, ',');
    if rest == [] {
      assert p == [""];
    } else {
      assert p[0] == "";
    }
    assert Split(body + rest, ',')[0] == body;
    assert Split(url, ',')[1] == body;
  }

  /** The editor form's state. */
  class Editor {
    var imageFile: Option<File>
    var originalImage: Option<string>
    var editedImage: Option<string>
    var prompt: string
    var isLoading: bool
    var error: string
    /** The calls made to `editImage`, oldest first. */
    ghost var requests: seq<EditRequest>

    constructor ()
      ensures imageFile == None && originalImage == None && editedImage == None
      ensures prompt == "" && !isLoading && error == "" && requests == []
    {
      imageFile, originalImage, editedImage := None, None, None;
      prompt, isLoading, error := "", false, "";
      requests := [];
    }

    /** The prompt field's change handler. */
    method SetPrompt(value: string)
      modifies this
      ensures prompt == value
      ensures imageFile == old(imageFile) && originalImage == old(originalImage) && editedImage == old(editedImage)
      ensures isLoading == old(isLoading) && error == old(error) && requests == old(requests)
    {
      prompt := value;
    }

    /** The submit button is disabled exactly while a request is in flight,
        while no file is chosen, or while the prompt is white space only. */
    function SubmitDisabled(): (disabled: bool)
      reads this
      ensures disabled <==>
        isLoading || imageFile.None? || forall i | 0 <= i < |prompt| :: IsWhiteSpace(prompt[i])
    {
      TrimEmptyIffBlank(prompt);
      isLoading || imageFile.None? || Trim(prompt) == []
    }

    /** The file input's change handler; `previewUrl` stands for the object
        URL the browser makes for the file. An empty selection changes
        nothing. */
    method HandleFileChange(selected: Option<File>, previewUrl: string)
      modifies this
      ensures selected.None? ==> unchanged(this)
      ensures selected.Some? ==>
        && imageFile == selected && editedImage == None && error == ""
        && originalImage == Some(previewUrl)
        && prompt == old(prompt) && isLoading == old(isLoading) && requests == old(requests)
    {
      if selected.Some? {
        imageFile := selected;
        editedImage := None;
        error := "";
        originalImage := Some(previewUrl);
      }
    }

    /** The synchronous start of `handleSubmit`: without a file, or with a
        white-space-only prompt, it sets the validation error and stops;
        otherwise it raises the loading flag and clears the error and the
        previous result. */
    method BeginSubmit() returns (go: bool)
      modifies this
      ensures go == (old(imageFile).Some? && Trim(old(prompt)) != [])
      ensures imageFile == old(imageFile) && originalImage == old(originalImage)
      ensures prompt == old(prompt) && requests == old(requests)
      ensures !go ==> error == VALIDATION_ERROR && isLoading == old(isLoading) && editedImage == old(editedImage)
      ensures go ==> isLoading && error == "" && editedImage == None
    {
      if imageFile.None? || Trim(prompt) == [] {
        error := VALIDATION_ERROR;
        return false;
      }
      go := true;
      isLoading := true;
      error := "";
      editedImage := None;
    }

    /** The rest of `handleSubmit`, for the `file` and `text` captured at
        submission: `read` is the file reader's data URL (`None` when it
        failed) and `reply` how `editImage`'s SDK call settled. A non-empty
        image becomes a PNG data URL; an absent or empty one sets the
        "could not edit" error; a failure sets the generic error. */
    method FinishSubmit(file: File, text: string, read: Option<string>, reply: Reply<GenerateContentResponse>)
      modifies this
      ensures !isLoading
      ensures imageFile == old(imageFile) && originalImage == old(originalImage) && prompt == old(prompt)
      ensures read.None? ==> requests == old(requests)
      ensures read.Some? ==>
        requests == old(requests) + [EditRequest(InlineImage(file.mimeType, Base64Payload(read.value)), text)]
      ensures var image := if read.Some? && reply.Resolved? then FirstInlineData(ResponseParts(reply.value)) else None;
        && (Truthy(image) ==> editedImage == Some(PNG_DATA_URL_PREFIX + image.value) && error == old(error))
        && (read.Some? && reply.Resolved? && !Truthy(image) ==>
              editedImage == old(editedImage) && error == NO_IMAGE_ERROR)
        && (read.None? || reply.Rejected? ==> editedImage == old(editedImage) && error == FAILURE_ERROR)
    {
      match read {
      case None =>
        error := FAILURE_ERROR;
      case Some(dataUrl) =>
        requests := requests + [EditRequest(InlineImage(file.mimeType, Base64Payload(dataUrl)), text)];
        match reply {
        case Rejected =>
          error := FAILURE_ERROR;
        case Resolved(response) =>
          var result := EditImage(response);
          if result.Some? && result.value != "" {
            editedImage := Some(PNG_DATA_URL_PREFIX + result.value);
          } else {
            error := NO_IMAGE_ERROR;
          }
        }
      }
      isLoading := false;
    }

    /** `handleSubmit`. When it gets past validation it ends with the
        loading flag down and exactly one of an edited image and an error
        message set. A click on the enabled button always gets past the
        validation and, once the file is read, sends exactly one request;
        while the button is disabled for want of a file or a prompt, the
        handler sends nothing. */
    method HandleSubmit(read: Option<string>, reply: Reply<GenerateContentResponse>)
      modifies this
      ensures !old(SubmitDisabled()) ==>
        && error != VALIDATION_ERROR && !isLoading
        && (read.Some? ==> |requests| == |old(requests)| + 1)
      ensures old(SubmitDisabled()) && !old(isLoading) ==> error == VALIDATION_ERROR && requests == old(requests)
      ensures imageFile == old(imageFile) && originalImage == old(originalImage) && prompt == old(prompt)
      ensures old(imageFile).None? || Trim(old(prompt)) == [] ==>
        && error == VALIDATION_ERROR && isLoading == old(isLoading)
        && editedImage == old(editedImage) && requests == old(requests)
      ensures old(imageFile).Some? && Trim(old(prompt)) != [] ==>
        var image := if read.Some? && reply.Resolved? then FirstInlineData(ResponseParts(reply.value)) else None;
        && !isLoading
        && (editedImage.Some? <==> error == "")
        && (Truthy(image) ==> editedImage == Some(PNG_DATA_URL_PREFIX + image.value) && error == "")
        && (editedImage.Some? ==> Truthy(image) && editedImage.value == PNG_DATA_URL_PREFIX + image.value)
        && (read.Some? && reply.Resolved? && !Truthy(image) ==> error == NO_IMAGE_ERROR)
        && (read.None? || reply.Rejected? ==> error == FAILURE_ERROR)
        && (read.None? ==> requests == old(requests))
        && (read.Some? ==> requests == old(requests) + [EditRequest(
              InlineImage(old(imageFile).value.mimeType, Base64Payload(read.value)), old(prompt))])
    {
      var go := BeginSubmit();
      if go {
        FinishSubmit(imageFile.value, prompt, read, reply);
      }
    }
  }
}
