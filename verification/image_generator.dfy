/**
 * The main generation widget (`src/components/ImageGenerator.tsx`): the X key
 * lifecycle (validate, load on mount, re-validate on change, save, check and
 * save, clear), the reference-image upload, and `handleSubmit` with its guard
 * chain, its choice between text-to-image and image-to-image, and its
 * completion.
 *
 * Each handler is a pure transition on `State` (the component's state
 * variables plus `localStorage`), and `Generator` is the component itself,
 * whose methods are proved to perform those transitions and to keep the
 * component invariant.
 */
module ImageGen {
  import opened Wrappers
  import opened Text
  import opened Session
  import Api

  const KEY_PREFIX := "sk-"
  const KEY_LENGTH := 51
  /** The aspect ratios offered while no reference image is staged. */
  const ASPECT_RATIOS := ["4:3", "3:4", "16:9", "9:16", "2:3", "3:2", "1:1", "1:2"]
  const INITIAL_ASPECT_RATIO := "4:3"
  const INITIAL_MODEL := "nano-banana"
  /** "Please enter the X Key". */
  const MSG_ENTER_KEY := "请输入X Key"
  /** "The X key format is wrong, please check it". */
  const MSG_BAD_KEY := "X key格式不正确，请检查"
  /** "Please enter a prompt". */
  const MSG_ENTER_PROMPT := "请输入提示词"

  /**
   * The predicate inside `validateXKey`: the key begins with `sk-` and its
   * `length`, counted in UTF-16 code units, is 51.
   */
  predicate ValidKey(key: string)
    ensures ValidKey(key) ==> 26 <= |key| <= 51 && key[..3] == KEY_PREFIX
  {
    StartsWith(key, KEY_PREFIX) && Utf16Length(key) == KEY_LENGTH
  }

  /**
   * A valid key begins with `sk-` and is 51 code units long, so it is never
   * blank; a key of Basic Multilingual Plane characters is valid exactly when
   * it has 51 characters and begins with `sk-`.
   */
  lemma ValidKeyShape(key: string)
    ensures ValidKey(key) <==> Utf16Length(key) == 51 && |key| >= 3 && key[..3] == "sk-"
    ensures ValidKey(key) ==> !IsBlank(key)
    ensures (forall i | 0 <= i < |key| :: key[i] as int < 0x1_0000) ==>
              (ValidKey(key) <==> |key| == 51 && key[..3] == "sk-")
  {
    if ValidKey(key) {
      assert key[0] == key[..3][0] == 's';
    }
    if forall i | 0 <= i < |key| :: key[i] as int < 0x1_0000 {
      Utf16LengthBmp(key);
    }
  }

  /**
   * A character outside the Basic Multilingual Plane counts twice towards
   * `length`: `sk-`, 47 letters and an emoji make 51 characters but 52 code
   * units, and the key is refused.
   */
  lemma AstralCharacterCountsTwice()
    ensures var key := KEY_PREFIX + seq(47, _ => 'x') + "\U{1F600}";
            |key| == 51 && Utf16Length(key) == 52 && !ValidKey(key)
  {
    var head := KEY_PREFIX + seq(47, _ => 'x');
    Utf16LengthBmp(head);
    Utf16LengthConcat(head, "\U{1F600}");
  }

  /** A valid key never trims to nothing, so the blank-key guard never refuses one. */
  lemma ValidKeySurvivesTrim(key: string)
    ensures ValidKey(key) ==> Trim(key) != ""
  {
    ValidKeyShape(key);
    TrimEmptyIffBlank(key);
  }

  /** The component's state variables, with `localStorage` as a map. */
  datatype State = State(
    xKey: string,
    isValidKey: bool,
    prompt: string,
    uploadedImage: Option<Api.File>,
    uploadedImagePreview: Option<string>,
    aspectRatio: string,
    model: string,
    isLoading: bool,
    error: string,
    toastVisible: bool,
    toastMessage: string,
    imageUrl: string,
    storage: map<string, string>)

  /** The state of a freshly rendered component, before its effects run. */
  function Initial(storage: map<string, string>): State
  {
    State("", false, "", None, None, INITIAL_ASPECT_RATIO, INITIAL_MODEL, false, "", false, "", "", storage)
  }

  /** `setError(msg)` followed by `showToast(msg)`. */
  function Rejected(s: State, msg: string): State
  {
    s.(error := msg, toastVisible := true, toastMessage := msg)
  }

  /** The load-on-mount effect: a truthy saved key becomes `xKey` and is validated. */
  function Mounted(s: State): State
  {
    match Api.SavedKey(s.storage)
    case None => s
    case Some(k) => s.(xKey := k, isValidKey := ValidKey(k))
  }

  /** An edit of the key field followed by the re-validate effect on `[xKey]`. */
  function KeyEdited(s: State, key: string): State
  {
    s.(xKey := key, isValidKey := if key != "" then ValidKey(key) else false)
  }

  /** `saveXKeyToStorage(key)` on the component's own state. */
  function Saved(s: State, key: string): State
  {
    if ValidKey(key) then s.(isValidKey := true, storage := s.storage[Api.STORAGE_KEY := key])
    else s.(isValidKey := false)
  }

  /** `checkAndSaveXKey()`: the new state and the value returned. */
  function KeyChecked(s: State): (State, bool)
  {
    if s.xKey != "" && !s.isValidKey then (Rejected(s, MSG_BAD_KEY), false)
    else if s.xKey != "" && s.isValidKey then (Saved(s, s.xKey), true)
    else (s, true)
  }

  /** `clearXKey()`. */
  function Cleared(s: State): State
  {
    s.(xKey := "", isValidKey := false, storage := s.storage - {Api.STORAGE_KEY})
  }

  /** `handleImageUpload` given the selected files and the preview url made for the first. */
  function Uploaded(s: State, files: seq<Api.File>, previewUrl: string): State
  {
    if |files| == 0 then s
    else if !IsImageFile(files[0]) then Rejected(s, MSG_NOT_IMAGE)
    else s.(uploadedImage := Some(files[0]), uploadedImagePreview := Some(previewUrl), error := "")
  }

  /** The call `handleSubmit` awaits: `editImage` when an image is staged, `generateImage` otherwise. */
  function CallFor(s: State): Api.Call
  {
    match s.uploadedImage
    case Some(image) => Api.Edit(s.prompt, image, s.model)
    case None => Api.Generate(s.prompt, s.aspectRatio, s.model)
  }

  /** The first guard of `handleSubmit` that fails, if any. */
  function SubmitGuard(xKey: string, prompt: string): Option<string>
  {
    if Trim(xKey) == "" then Some(MSG_ENTER_KEY)
    else if !ValidKey(xKey) then Some(MSG_BAD_KEY)
    else if Trim(prompt) == "" then Some(MSG_ENTER_PROMPT)
    else None
  }

  /** `handleSubmit` up to the await: the state then and the call made, if any. */
  function Submission(s: State): (State, Option<Api.Call>)
  {
    if Trim(s.xKey) == "" then (Rejected(s, MSG_ENTER_KEY), None)
    else AfterKeyCheck(KeyChecked(s))
  }

  /** `handleSubmit` once `checkAndSaveXKey` has answered: a refusal ends it there. */
  function AfterKeyCheck(checked: (State, bool)): (State, Option<Api.Call>)
  {
    if !checked.1 then (checked.0, None) else PromptStage(checked.0)
  }

  /** The prompt guard of `handleSubmit`, then `isLoading` and the call. */
  function PromptStage(t: State): (State, Option<Api.Call>)
  {
    if Trim(t.prompt) == "" then (Rejected(t, MSG_ENTER_PROMPT), None)
    else (t.(isLoading := true, error := ""), Some(CallFor(t)))
  }

  /** The rest of `handleSubmit` once the awaited call has settled, `finally` included. */
  function Completed(s: State, outcome: Outcome): (t: State)
    ensures !t.isLoading
    ensures outcome.Succeeded? ==> t == s.(imageUrl := outcome.url, isLoading := false)
    ensures outcome.Failed? ==>
              t.imageUrl == s.imageUrl && t.toastVisible
              && t.error == t.toastMessage == FailureMessage(outcome.message)
              && t == s.(error := t.error, toastVisible := true, toastMessage := t.error, isLoading := false)
  {
    match outcome
    case Succeeded(url) => s.(imageUrl := url, isLoading := false)
    case Failed(message) => Rejected(s, FailureMessage(message)).(isLoading := false)
  }

  /** The guards of `handleSubmit`, in order: blank key, malformed key, blank prompt. */
  lemma GuardOrder(xKey: string, prompt: string)
    ensures SubmitGuard(xKey, prompt) == Some(MSG_ENTER_KEY) <==> IsBlank(xKey)
    ensures SubmitGuard(xKey, prompt) == Some(MSG_BAD_KEY) <==> !IsBlank(xKey) && !ValidKey(xKey)
    ensures SubmitGuard(xKey, prompt) == Some(MSG_ENTER_PROMPT) <==> ValidKey(xKey) && IsBlank(prompt)
    ensures SubmitGuard(xKey, prompt) == None <==> ValidKey(xKey) && !IsBlank(prompt)
  {
    TrimEmptyIffBlank(xKey);
    TrimEmptyIffBlank(prompt);
    ValidKeyShape(xKey);
  }

  /**
   * A rejected submission makes no call, leaves `isLoading` and `imageUrl`
   * alone and shows the first failing guard's message; the key is saved
   * before the prompt is looked at, and only a valid key is ever saved.
   */
  lemma SubmissionRejects(s: State)
    requires s.isValidKey == ValidKey(s.xKey)
    ensures var (t, call) := Submission(s);
            call.None? <==> SubmitGuard(s.xKey, s.prompt).Some?
    ensures var (t, call) := Submission(s);
            call.None? ==>
              t.isLoading == s.isLoading && t.imageUrl == s.imageUrl && t.uploadedImage == s.uploadedImage
              && Some(t.error) == SubmitGuard(s.xKey, s.prompt) && t.toastVisible && t.toastMessage == t.error
    ensures var (t, call) := Submission(s);
            call.None? ==> t == Rejected(s.(storage := t.storage), t.error)
    ensures var (t, call) := Submission(s);
            t.storage == if ValidKey(s.xKey) then s.storage[Api.STORAGE_KEY := s.xKey] else s.storage
  {
    TrimEmptyIffBlank(s.xKey);
    TrimEmptyIffBlank(s.prompt);
    ValidKeyShape(s.xKey);
    if IsBlank(s.xKey) {
      assert Submission(s) == (Rejected(s, MSG_ENTER_KEY), None);
    } else if !ValidKey(s.xKey) {
      assert Submission(s) == (Rejected(s, MSG_BAD_KEY), None);
    } else {
      var t := Saved(s, s.xKey);
      assert KeyChecked(s) == (t, true);
      if IsBlank(s.prompt) {
        assert Submission(s) == (Rejected(t, MSG_ENTER_PROMPT), None);
      } else {
        assert Submission(s).1.Some?;
      }
    }
  }

  /**
   * An accepted submission sets `isLoading`, clears the error and makes
   * exactly one call: `editImage(prompt, image, model)` when an image is
   * staged, `generateImage(prompt, aspectRatio, model)` otherwise.
   */
  lemma SubmissionCalls(s: State)
    requires s.isValidKey == ValidKey(s.xKey)
    requires ValidKey(s.xKey) && !IsBlank(s.prompt)
    ensures var (t, call) := Submission(s);
            t == s.(storage := s.storage[Api.STORAGE_KEY := s.xKey], isLoading := true, error := "")
            && call.Some?
            && (s.uploadedImage.Some? ==> call.value == Api.Edit(s.prompt, s.uploadedImage.value, s.model))
            && (s.uploadedImage.None? ==> call.value == Api.Generate(s.prompt, s.aspectRatio, s.model))
  {
    TrimEmptyIffBlank(s.xKey);
    TrimEmptyIffBlank(s.prompt);
    ValidKeyShape(s.xKey);
  }

  /**
   * Mode exclusivity on the wire: whatever the client's state, the request a
   * submission sends carries an aspect ratio exactly when no image is
   * staged, and the image exactly when one is.
   */
  lemma ModeExclusive(client: Api.Client, s: State)
    ensures var fields := Api.FieldNames(client.RequestFor(CallFor(s)).body);
            ("aspect_ratio" in fields <==> s.uploadedImage.None?) && ("image" in fields <==> s.uploadedImage.Some?)
  {
    var image := if s.uploadedImage.Some? then s.uploadedImage.value else Api.File("", "");
    Api.RequestFieldsExclusive(s.prompt, Some(s.aspectRatio), image, Some(s.model),
                               Api.SentHeaders(client.commonHeaders, client.instanceHeaders), client.apiKey);
  }

  /**
   * `checkAndSaveXKey`: a non-empty malformed key is refused with the format
   * message and storage untouched; an empty key passes without saving; a
   * valid key is saved.
   */
  lemma KeyCheckCases(s: State)
    requires s.isValidKey == ValidKey(s.xKey)
    ensures var (t, ok) := KeyChecked(s);
            ok <==> s.xKey == "" || ValidKey(s.xKey)
    ensures var (t, ok) := KeyChecked(s);
            !ok ==> t == Rejected(s, MSG_BAD_KEY) && t.storage == s.storage
    ensures var (t, ok) := KeyChecked(s);
            s.xKey == "" ==> t == s
    ensures var (t, ok) := KeyChecked(s);
            ValidKey(s.xKey) ==> t == s.(storage := s.storage[Api.STORAGE_KEY := s.xKey])
  {
  }

  /** After any edit of the key the flag agrees with `validateXKey`, and an empty key is never valid. */
  lemma KeyEditedValidates(s: State, key: string)
    ensures KeyEdited(s, key).isValidKey == ValidKey(key)
    ensures key == "" ==> !KeyEdited(s, key).isValidKey
  {
  }

  /** Clearing empties the key and removes it from storage; clearing twice is clearing once. */
  lemma ClearIdempotent(s: State)
    ensures Cleared(s).xKey == "" && !Cleared(s).isValidKey && Api.STORAGE_KEY !in Cleared(s).storage
    ensures Cleared(Cleared(s)) == Cleared(s)
  {
  }

  /** Upload: nothing selected changes nothing; a non-image is refused; an image is staged. */
  lemma UploadCases(s: State, files: seq<Api.File>, previewUrl: string)
    ensures |files| == 0 ==> Uploaded(s, files, previewUrl) == s
    ensures |files| > 0 && !IsImageFile(files[0]) ==>
              Uploaded(s, files, previewUrl) == Rejected(s, MSG_NOT_IMAGE)
              && Uploaded(s, files, previewUrl).uploadedImage == s.uploadedImage
    ensures |files| > 0 && IsImageFile(files[0]) ==>
              Uploaded(s, files, previewUrl).uploadedImage == Some(files[0])
              && Uploaded(s, files, previewUrl).error == ""
  {
  }

  /**
   * A valid key saved by `checkAndSaveXKey` is found again by a fresh page:
   * the API client starts with it and the remounted component shows it as valid.
   * A cleared key is not found.
   */
  lemma SaveThenReload(s: State)
    requires s.isValidKey == ValidKey(s.xKey) && ValidKey(s.xKey)
    ensures var stored := KeyChecked(s).0.storage;
            Api.SavedKey(stored) == Some(s.xKey)
            && Mounted(Initial(stored)).xKey == s.xKey && Mounted(Initial(stored)).isValidKey
    ensures Api.SavedKey(Cleared(s).storage).None?
  {
    ValidKeyShape(s.xKey);
  }

  /** The component. */
  class Generator {
    var xKey: string
    var isValidKey: bool
    var prompt: string
    var uploadedImage: Option<Api.File>
    var uploadedImagePreview: Option<string>
    var aspectRatio: string
    var model: string
    var isLoading: bool
    var error: string
    var toastVisible: bool
    var toastMessage: string
    var imageUrl: string
    /** `localStorage`. */
    var storage: map<string, string>
    /** The API client module the component calls `setApiKey` on. */
    const api: Api.Client

    function Snapshot(): State
      reads this
    {
      State(xKey, isValidKey, prompt, uploadedImage, uploadedImagePreview, aspectRatio, model,
            isLoading, error, toastVisible, toastMessage, imageUrl, storage)
    }

    /** The flag shown beside the key always agrees with the key, and the choices stay within their sets. */
    ghost predicate Valid()
      reads this
    {
      isValidKey == ValidKey(xKey) && aspectRatio in ASPECT_RATIOS && model in MODELS
    }

    /** The first render. */
    constructor (api: Api.Client, storage: map<string, string>)
      ensures Valid() && this.api == api
      ensures Snapshot() == Initial(storage)
    {
      xKey, isValidKey, prompt := "", false, "";
      uploadedImage, uploadedImagePreview := None, None;
      aspectRatio, model := INITIAL_ASPECT_RATIO, INITIAL_MODEL;
      isLoading, error, toastVisible, toastMessage, imageUrl := false, "", false, "", "";
      this.storage := storage;
      this.api := api;
    }

    /** `showToast`. */
    method ShowToast(message: string)
      modifies this
      ensures Snapshot() == old(Snapshot()).(toastMessage := message, toastVisible := true)
    {
      toastMessage := message;
      toastVisible := true;
    }

    /** `closeToast`. */
    method CloseToast()
      requires Valid()
      modifies this
      ensures Valid()
      ensures Snapshot() == old(Snapshot()).(toastVisible := false)
    {
      toastVisible := false;
    }

    /** `validateXKey(key)`: sets the flag and returns it. */
    method ValidateXKey(key: string) returns (isValid: bool)
      modifies this`isValidKey
      ensures isValid == ValidKey(key)
      ensures Snapshot() == old(Snapshot()).(isValidKey := isValid)
    {
      isValid := ValidKey(key);
      isValidKey := isValid;
    }

    /** The load-on-mount effect; a valid saved key is also handed to the API client. */
    method LoadSavedKey()
      requires Valid()
      modifies this, api
      ensures Valid()
      ensures Snapshot() == Mounted(old(Snapshot()))
      ensures match Api.SavedKey(storage)
              case Some(k) => if ValidKey(k) then Api.KeySetAsWritten(api, k) else unchanged(api)
              case None => unchanged(api)
    {
      var savedKey := Api.SavedKey(storage);
      if savedKey.Some? {
        xKey := savedKey.value;
        var ok := ValidateXKey(savedKey.value);
        if ok {
          api.SetApiKeyAsWritten(savedKey.value);
        }
      }
    }

    /** Typing into the key field, followed by the re-validate effect. */
    method SetXKey(key: string)
      requires Valid()
      modifies this
      ensures Valid()
      ensures Snapshot() == KeyEdited(old(Snapshot()), key)
    {
      xKey := key;
      if xKey != "" {
        var _ := ValidateXKey(xKey);
      } else {
        isValidKey := false;
      }
    }

    /** `saveXKeyToStorage(key)`: only a valid key is stored and handed to the API client. */
    method SaveXKeyToStorage(key: string)
      modifies this, api
      ensures Snapshot() == Saved(old(Snapshot()), key)
      ensures if ValidKey(key) then Api.KeySetAsWritten(api, key) else unchanged(api)
    {
      var ok := ValidateXKey(key);
      if ok {
        storage := storage[Api.STORAGE_KEY := key];
        api.SetApiKeyAsWritten(key);
      }
    }

    /** `checkAndSaveXKey()`, also run when the key field loses focus. */
    method CheckAndSaveXKey() returns (ok: bool)
      requires Valid()
      modifies this, api
      ensures Valid()
      ensures (Snapshot(), ok) == KeyChecked(old(Snapshot()))
      ensures if ValidKey(xKey) then Api.KeySetAsWritten(api, xKey) else unchanged(api)
    {
      if xKey != "" && !isValidKey {
        error := MSG_BAD_KEY;
        ShowToast(MSG_BAD_KEY);
        return false;
      }
      if xKey != "" && isValidKey {
        SaveXKeyToStorage(xKey);
        return true;
      }
      return true;
    }

    /** `clearXKey()`: the API client keeps whatever key it had. */
    method ClearXKey()
      requires Valid()
      modifies this
      ensures Valid()
      ensures Snapshot() == Cleared(old(Snapshot()))
      ensures unchanged(api)
    {
      xKey := "";
      isValidKey := false;
      storage := storage - {Api.STORAGE_KEY};
    }

    /** `handleImageUpload`, given the input's file list and the object url made for the first file. */
    method HandleImageUpload(files: seq<Api.File>, previewUrl: string)
      requires Valid()
      modifies this
      ensures Valid()
      ensures Snapshot() == Uploaded(old(Snapshot()), files, previewUrl)
    {
      if |files| == 0 {
        return;
      }
      var file := files[0];
      if !IsImageFile(file) {
        error := MSG_NOT_IMAGE;
        ShowToast(MSG_NOT_IMAGE);
        return;
      }
      uploadedImage := Some(file);
      uploadedImagePreview := Some(previewUrl);
      error := "";
    }

    /** The remove-image button on the preview. */
    method RemoveImage()
      requires Valid()
      modifies this
      ensures Valid()
      ensures Snapshot() == old(Snapshot()).(uploadedImage := None, uploadedImagePreview := None)
    {
      uploadedImage := None;
      uploadedImagePreview := None;
    }

    method SetPrompt(text: string)
      requires Valid()
      modifies this
      ensures Valid()
      ensures Snapshot() == old(Snapshot()).(prompt := text)
    {
      prompt := text;
    }

    /** One of the aspect-ratio buttons. */
    method SetAspectRatio(ratio: string)
      requires Valid() && ratio in ASPECT_RATIOS
      modifies this
      ensures Valid()
      ensures Snapshot() == old(Snapshot()).(aspectRatio := ratio)
    {
      aspectRatio := ratio;
    }

    /** One of the model selector's options. */
    method SetModel(choice: string)
      requires Valid() && choice in MODELS
      modifies this
      ensures Valid()
      ensures Snapshot() == old(Snapshot()).(model := choice)
    {
      model := choice;
    }

    /** `handleSubmit` up to the await: the guards, then `isLoading` and the call. */
    method BeginSubmit() returns (call: Option<Api.Call>)
      requires Valid()
      modifies this, api
      ensures Valid()
      ensures (Snapshot(), call) == Submission(old(Snapshot()))
      ensures if ValidKey(xKey) then Api.KeySetAsWritten(api, xKey) else unchanged(api)
    {
      ghost var s0 := Snapshot();
      if Trim(xKey) == "" {
        ValidKeySurvivesTrim(xKey);
        assert Submission(s0) == (Rejected(s0, MSG_ENTER_KEY), None);
        error := MSG_ENTER_KEY;
        ShowToast(MSG_ENTER_KEY);
        return None;
      }
      assert Submission(s0) == AfterKeyCheck(KeyChecked(s0));
      var keyOk := CheckAndSaveXKey();
      if !keyOk {
        return None;
      }
      call := SubmitPrompt();
    }

    /** The prompt guard of `handleSubmit` and what follows it, once the key has passed. */
    method SubmitPrompt() returns (call: Option<Api.Call>)
      requires Valid()
      modifies this
      ensures Valid()
      ensures (Snapshot(), call) == PromptStage(old(Snapshot()))
    {
      ghost var t := Snapshot();
      if Trim(prompt) == "" {
        assert PromptStage(t) == (Rejected(t, MSG_ENTER_PROMPT), None);
        error := MSG_ENTER_PROMPT;
        ShowToast(MSG_ENTER_PROMPT);
        return None;
      }
      assert PromptStage(t) == (t.(isLoading := true, error := ""), Some(CallFor(t)));
      isLoading := true;
      error := "";
      if uploadedImage.Some? {
        call := Some(Api.Edit(prompt, uploadedImage.value, model));
      } else {
        call := Some(Api.Generate(prompt, aspectRatio, model));
      }
    }

    /** The rest of `handleSubmit` once the call has settled. */
    method FinishSubmit(outcome: Outcome)
      requires Valid()
      modifies this
      ensures Valid()
      ensures Snapshot() == Completed(old(Snapshot()), outcome)
    {
      match outcome {
        case Succeeded(url) =>
          imageUrl := url;
        case Failed(message) =>
          var shown := if message.Some? then message.value else MSG_FALLBACK;
          error := shown;
          ShowToast(shown);
      }
      isLoading := false;
    }

    /** `handleSubmit` as one step: guards, the call settling with `outcome`, completion. */
    method HandleSubmit(outcome: Outcome) returns (call: Option<Api.Call>)
      requires Valid()
      modifies this, api
      ensures Valid()
      ensures call == Submission(old(Snapshot())).1
      ensures Snapshot() == if call.None? then Submission(old(Snapshot())).0
                            else Completed(Submission(old(Snapshot())).0, outcome)
      ensures if ValidKey(xKey) then Api.KeySetAsWritten(api, xKey) else unchanged(api)
    {
      call := BeginSubmit();
      if call.Some? {
        FinishSubmit(outcome);
      }
    }

    /** The submit button, disabled while a request is in flight. */
    method ClickSubmit(outcome: Outcome) returns (call: Option<Api.Call>)
      requires Valid()
      modifies this, api
      ensures Valid()
      ensures old(isLoading) ==> call.None? && Snapshot() == old(Snapshot()) && unchanged(api)
      ensures !old(isLoading) ==> call == Submission(old(Snapshot())).1
      ensures !old(isLoading) ==>
                Snapshot() == if call.None? then Submission(old(Snapshot())).0
                              else Completed(Submission(old(Snapshot())).0, outcome)
      ensures !old(isLoading) ==> if ValidKey(xKey) then Api.KeySetAsWritten(api, xKey) else unchanged(api)
    {
      if isLoading {
        return None;
      }
      call := HandleSubmit(outcome);
    }
  }
}
