/**
 * What the two generation widgets (`ImageGenerator.tsx` and
 * `CaseGenerator.tsx`) have in common: the file-type check, the model
 * choices, the shared messages and the outcome of an API call.
 */
module Session {
  import opened Wrappers
  import opened Text
  import Api

  const IMAGE_TYPE_PREFIX := "image/"
  /** The two models offered by the model selector. */
  const MODELS := ["nano-banana", "nano-banana-hd"]
  /** "Please upload an image file". */
  const MSG_NOT_IMAGE := "请上传图片文件"
  /** "Image generation failed, please try again later", shown when the thrown value has no message. */
  const MSG_FALLBACK := "生成图片失败，请稍后再试"

  /** `file.type.startsWith('image/')`. */
  predicate IsImageFile(file: Api.File)
  {
    StartsWith(file.mimeType, IMAGE_TYPE_PREFIX)
  }

  /**
   * The `image/` prefix test spelled out as a length and a slice, and worked
   * on two MIME types: `text/plain` is refused and `image/png` accepted.
   */
  lemma IsImageFileIffPrefix(file: Api.File)
    ensures IsImageFile(file) <==> |file.mimeType| >= 6 && file.mimeType[..6] == "image/"
    ensures !IsImageFile(Api.File(file.name, "text/plain"))
    ensures IsImageFile(Api.File(file.name, "image/png"))
  {
    assert "text/plain"[0] != "image/"[0];
  }

  /**
   * How an awaited `editImage` or `generateImage` ended: resolved with a url,
   * or threw (`message` present when the thrown value is an `Error`).
   */
  datatype Outcome = Succeeded(url: string) | Failed(message: Option<string>)

  /** `err instanceof Error ? err.message : fallback`. */
  function FailureMessage(message: Option<string>): (shown: string)
    ensures message.Some? ==> shown == message.value
    ensures message.None? ==> shown == MSG_FALLBACK
  {
    message.GetOr(MSG_FALLBACK)
  }
}
