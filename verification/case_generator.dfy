/**
 * The per-case generation overlay (`src/components/CaseGenerator.tsx`): an
 * image-to-image only session seeded with a case's fixed prompt. It stages a
 * reference image from the file input or from a drop, refuses to generate
 * without one, and always calls `editImage`.
 */
module CaseGen {
  import opened Wrappers
  import opened Session
  import Api

  const INITIAL_MODEL := "nano-banana"
  /** "Please upload an image first". */
  const MSG_UPLOAD_FIRST := "请先上传图片"

  /** The overlay's state variables (the case's `prompt` is a fixed prop, kept outside). */
  datatype State = State(
    isLoading: bool,
    error: string,
    toastVisible: bool,
    toastMessage: string,
    uploadedImage: Option<Api.File>,
    uploadedImagePreview: Option<string>,
    resultImageUrl: Option<string>,
    model: string)

  /** The state the overlay opens with. */
  function Initial(): (s: State)
    ensures s.resultImageUrl.None? && s.model == "nano-banana" && !s.isLoading
    ensures s.uploadedImage.None? && s.uploadedImagePreview.None?
  {
    State(false, "", false, "", None, None, None, INITIAL_MODEL)
  }

  /** `setError(msg)` followed by `showToast(msg)`. */
  function Rejected(s: State, msg: string): State
  {
    s.(error := msg, toastVisible := true, toastMessage := msg)
  }

  /**
   * What the upload handler and the drop handler both do with a file list:
   * only the first file counts, an empty list changes nothing, a non-image
   * is refused, an image is staged with its preview and the error cleared.
   */
  function Staged(s: State, files: seq<Api.File>, previewUrl: string): State
  {
    if |files| == 0 then s
    else if !IsImageFile(files[0]) then Rejected(s, MSG_NOT_IMAGE)
    else s.(uploadedImage := Some(files[0]), uploadedImagePreview := Some(previewUrl), error := "")
  }

  /** The remove-image button. */
  function ImageRemoved(s: State): State
  {
    s.(uploadedImage := None, uploadedImagePreview := None)
  }

  /** `disabled={isLoading || !uploadedImage}` on the generate button, negated. */
  predicate GenerateEnabled(s: State)
  {
    !s.isLoading && s.uploadedImage.Some?
  }

  /** `handleGenerateImage` up to the await: the state then and the call made, if any. */
  function Generation(s: State, prompt: string): (State, Option<Api.Call>)
  {
    match s.uploadedImage
    case None => (Rejected(s, MSG_UPLOAD_FIRST), None)
    case Some(image) => (s.(isLoading := true, error := ""), Some(Api.Edit(prompt, image, s.model)))
  }

  /** The rest of `handleGenerateImage` once the call has settled, `finally` included. */
  function Completed(s: State, outcome: Outcome): (t: State)
    ensures !t.isLoading
    ensures outcome.Succeeded? ==> t == s.(resultImageUrl := Some(outcome.url), isLoading := false)
    ensures outcome.Failed? ==>
              t.resultImageUrl == s.resultImageUrl && t.toastVisible
              && t.error == t.toastMessage == FailureMessage(outcome.message)
              && t == s.(error := t.error, toastVisible := true, toastMessage := t.error, isLoading := false)
  {
    match outcome
    case Succeeded(url) => s.(resultImageUrl := Some(url), isLoading := false)
    case Failed(message) => Rejected(s, FailureMessage(message)).(isLoading := false)
  }

  /**
   * Generating without a staged image shows "upload first", makes no call
   * and leaves `isLoading` and the result alone; with one it sets
   * `isLoading` and makes exactly the edit call with the case's prompt and
   * the chosen model. The text-to-image call is never made.
   */
  lemma GenerationCases(s: State, prompt: string)
    ensures var (t, call) := Generation(s, prompt);
            s.uploadedImage.None? ==>
              call.None? && t == Rejected(s, MSG_UPLOAD_FIRST)
              && t.isLoading == s.isLoading && t.resultImageUrl == s.resultImageUrl
    ensures var (t, call) := Generation(s, prompt);
            s.uploadedImage.Some? ==>
              call == Some(Api.Edit(prompt, s.uploadedImage.value, s.model))
              && t == s.(isLoading := true, error := "")
    ensures var (t, call) := Generation(s, prompt);
            call.None? || call.value.Edit?
  {
  }

  /** The generate button is enabled exactly when no request is in flight and a click would make a call. */
  lemma EnabledMeansCall(s: State, prompt: string)
    ensures GenerateEnabled(s) <==> !s.isLoading && Generation(s, prompt).1.Some?
  {
  }

  /** Upload and drop: an empty list changes nothing, a non-image stages nothing, an image is staged. */
  lemma StagedCases(s: State, files: seq<Api.File>, previewUrl: string)
    ensures |files| == 0 ==> Staged(s, files, previewUrl) == s
    ensures |files| > 0 && !IsImageFile(files[0]) ==>
              Staged(s, files, previewUrl) == Rejected(s, MSG_NOT_IMAGE)
              && Staged(s, files, previewUrl).uploadedImage == s.uploadedImage
              && Staged(s, files, previewUrl).uploadedImagePreview == s.uploadedImagePreview
    ensures |files| > 0 && IsImageFile(files[0]) ==>
              Staged(s, files, previewUrl).uploadedImage == Some(files[0])
              && Staged(s, files, previewUrl).error == ""
    ensures |files| > 0 ==> Staged(s, files, previewUrl) == Staged(s, files[..1], previewUrl)
  {
  }

  /**
   * The overlay never looks at the X key: whenever an image is staged it
   * sends the edit request, authenticated with whatever key the API client
   * holds at that moment, the empty key included.
   */
  lemma CallIgnoresKey(client: Api.Client, s: State, prompt: string)
    requires s.uploadedImage.Some?
    ensures var call := Generation(s, prompt).1;
            call.Some?
            && client.RequestFor(call.value).url == Api.API_BASE_URL + Api.EDITS_PATH
            && client.RequestFor(call.value).headers == map[Api.AUTHORIZATION := Api.Bearer(client.apiKey)]
  {
  }

  /** The overlay for one case. */
  class CaseSession {
    /** The case's fixed prompt. */
    const prompt: string
    var isLoading: bool
    var error: string
    var toastVisible: bool
    var toastMessage: string
    var uploadedImage: Option<Api.File>
    var uploadedImagePreview: Option<string>
    var resultImageUrl: Option<string>
    var model: string

    function Snapshot(): State
      reads this
    {
      State(isLoading, error, toastVisible, toastMessage, uploadedImage, uploadedImagePreview, resultImageUrl, model)
    }

    /** The model stays one of the selector's options. */
    ghost predicate Valid()
      reads this
    {
      model in MODELS
    }

    /** Opening the overlay for a case with the given prompt. */
    constructor (prompt: string)
      ensures Valid() && this.prompt == prompt
      ensures Snapshot() == Initial()
    {
      this.prompt := prompt;
      isLoading, error, toastVisible, toastMessage := false, "", false, "";
      uploadedImage, uploadedImagePreview, resultImageUrl := None, None, None;
      model := INITIAL_MODEL;
    }

    /** `showToast`. */
    method ShowToast(message: string)
      modifies this
      ensures Snapshot() == old(Snapshot()).(toastMessage := message, toastVisible := true)
    {
      toastMessage := message;
      toastVisible := true;
    }

    /** `closeToast`. */
    method CloseToast()
      requires Valid()
      modifies this
      ensures Valid()
      ensures Snapshot() == old(Snapshot()).(toastVisible := false)
    {
      toastVisible := false;
    }

    /** The type check and staging both handlers perform on their chosen file. */
    method StageFile(file: Api.File, previewUrl: string)
      requires Valid()
      modifies this
      ensures Valid()
      ensures Snapshot() == Staged(old(Snapshot()), [file], previewUrl)
    {
      if !IsImageFile(file) {
        error := MSG_NOT_IMAGE;
        ShowToast(MSG_NOT_IMAGE);
        return;
      }
      uploadedImage := Some(file);
      uploadedImagePreview := Some(previewUrl);
      error := "";
    }

    /** `handleImageUpload`: `e.target.files?.[0]`, nothing when there is none. */
    method HandleImageUpload(files: seq<Api.File>, previewUrl: string)
      requires Valid()
      modifies this
      ensures Valid()
      ensures Snapshot() == Staged(old(Snapshot()), files, previewUrl)
    {
      if |files| == 0 {
        return;
      }
      StageFile(files[0], previewUrl);
    }

    /** The drop handler: acts only when the drop carries at least one file, and looks at the first. */
    method HandleDrop(files: seq<Api.File>, previewUrl: string)
      requires Valid()
      modifies this
      ensures Valid()
      ensures Snapshot() == Staged(old(Snapshot()), files, previewUrl)
    {
      if |files| > 0 {
        StageFile(files[0], previewUrl);
      }
    }

    /** The remove-image button: both the file and its preview go. */
    method RemoveImage()
      requires Valid()
      modifies this
      ensures Valid()
      ensures Snapshot() == ImageRemoved(old(Snapshot()))
    {
      uploadedImage := None;
      uploadedImagePreview := None;
    }

    /** One of the model selector's options. */
    method SetModel(choice: string)
      requires Valid() && choice in MODELS
      modifies this
      ensures Valid()
      ensures Snapshot() == old(Snapshot()).(model := choice)
    {
      model := choice;
    }

    /** `handleGenerateImage` up to the await. */
    method BeginGenerate() returns (call: Option<Api.Call>)
      requires Valid()
      modifies this
      ensures Valid()
      ensures (Snapshot(), call) == Generation(old(Snapshot()), prompt)
    {
      if uploadedImage.None? {
        error := MSG_UPLOAD_FIRST;
        ShowToast(MSG_UPLOAD_FIRST);
        return None;
      }
      isLoading := true;
      error := "";
      call := Some(Api.Edit(prompt, uploadedImage.value, model));
    }

    /** The rest of `handleGenerateImage` once the call has settled. */
    method FinishGenerate(outcome: Outcome)
      requires Valid()
      modifies this
      ensures Valid()
      ensures Snapshot() == Completed(old(Snapshot()), outcome)
    {
      match outcome {
        case Succeeded(url) =>
          resultImageUrl := Some(url);
        case Failed(message) =>
          var shown := if message.Some? then message.value else MSG_FALLBACK;
          error := shown;
          ShowToast(shown);
      }
      isLoading := false;
    }

    /** `handleGenerateImage` as one step: guard, the call settling with `outcome`, completion. */
    method HandleGenerateImage(outcome: Outcome) returns (call: Option<Api.Call>)
      requires Valid()
      modifies this
      ensures Valid()
      ensures call == Generation(old(Snapshot()), prompt).1
      ensures Snapshot() == if call.None? then Generation(old(Snapshot()), prompt).0
                            else Completed(Generation(old(Snapshot()), prompt).0, outcome)
    {
      call := BeginGenerate();
      if call.Some? {
        FinishGenerate(outcome);
      }
    }

    /** The generate button: a click does nothing while it is disabled. */
    method ClickGenerate(outcome: Outcome) returns (call: Option<Api.Call>)
      requires Valid()
      modifies this
      ensures Valid()
      ensures !GenerateEnabled(old(Snapshot())) ==> call.None? && Snapshot() == old(Snapshot())
      ensures GenerateEnabled(old(Snapshot())) ==>
                call == Some(Api.Edit(prompt, old(uploadedImage).value, old(model)))
                && Snapshot() == Completed(old(Snapshot()).(isLoading := true, error := ""), outcome)
    {
      if isLoading || uploadedImage.None? {
        return None;
      }
      call := HandleGenerateImage(outcome);
    }
  }
}
