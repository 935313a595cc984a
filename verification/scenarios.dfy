/**
 * Worked runs of the two widgets, each a sequence of handler calls whose
 * effect follows from the handlers' contracts alone.
 */
module Scenarios {
  import opened Wrappers
  import opened Session
  import Api
  import ImageGen
  import CaseGen

  /** A well-formed key: `sk-` followed by 48 characters. */
  const SAMPLE_KEY: string := "sk-" + seq(48, _ => 'x')

  lemma SampleKeyIsValid()
    ensures ImageGen.ValidKey(SAMPLE_KEY)
  {
    assert SAMPLE_KEY[..3] == "sk-";
    Text.Utf16LengthBmp(SAMPLE_KEY);
    ImageGen.ValidKeyShape(SAMPLE_KEY);
  }

  /** No key stored or typed: a text prompt is refused before any call. */
  method MissingKeyIsRefused()
  {
    var client := new Api.Client(map[]);
    var widget := new ImageGen.Generator(client, map[]);
    widget.LoadSavedKey();
    widget.SetPrompt("cat");
    var call := widget.HandleSubmit(Succeeded("https://x/img1.png"));
    assert call.None?;
    assert widget.error == ImageGen.MSG_ENTER_KEY && widget.toastVisible;
    assert !widget.isLoading && widget.imageUrl == "";
  }

  /** A valid key, a text prompt and ratio 16:9: the generation call is made and its url shown. */
  method TextToImage()
  {
    SampleKeyIsValid();
    Text.TrimEmptyIffBlank("a cat in sunlight");
    var client := new Api.Client(map[]);
    var widget := new ImageGen.Generator(client, map[]);
    widget.SetXKey(SAMPLE_KEY);
    widget.SetPrompt("a cat in sunlight");
    widget.SetAspectRatio("16:9");
    ImageGen.SubmissionCalls(widget.Snapshot());
    var call := widget.HandleSubmit(Succeeded("https://x/img1.png"));
    assert call == Some(Api.Generate("a cat in sunlight", "16:9", "nano-banana"));
    assert widget.imageUrl == "https://x/img1.png" && !widget.isLoading;
    assert widget.storage[Api.STORAGE_KEY] == SAMPLE_KEY && client.apiKey == SAMPLE_KEY;
  }

  /**
   * A first visit with nothing stored, then a valid key typed and saved when
   * the key field loses focus: a generation request still carries the empty
   * key the client was created with, while an edit request carries the new one.
   */
  method SavedKeyNotSentWithGeneration() returns (generationAuth: string, editAuth: string)
    ensures generationAuth == Api.Bearer("") && generationAuth != Api.Bearer(SAMPLE_KEY)
    ensures editAuth == Api.Bearer(SAMPLE_KEY)
  {
    SampleKeyIsValid();
    var client := new Api.Client(map[]);
    assert client.instanceHeaders == Api.CreationHeaders("") && client.commonHeaders == map[];
    var widget := new ImageGen.Generator(client, map[]);
    widget.SetXKey(SAMPLE_KEY);
    var ok := widget.CheckAndSaveXKey();
    assert ok && widget.storage[Api.STORAGE_KEY] == SAMPLE_KEY;
    Api.StaleAuthorizationAsWritten("", SAMPLE_KEY);
    generationAuth := client.RequestFor(Api.Generate("a cat", "4:3", "nano-banana")).headers[Api.AUTHORIZATION];
    editAuth := client.RequestFor(Api.Edit("a cat", Api.File("photo.png", "image/png"), "nano-banana"))
                .headers[Api.AUTHORIZATION];
  }

  /** A staged PNG switches to the edit call, and a rejection's message is shown. */
  method ImageToImageFailure()
  {
    SampleKeyIsValid();
    Text.TrimEmptyIffBlank("ghibli style");
    var png := Api.File("photo.png", "image/png");
    IsImageFileIffPrefix(png);
    assert IsImageFile(png);
    var client := new Api.Client(map[]);
    var widget := new ImageGen.Generator(client, map[]);
    widget.SetXKey(SAMPLE_KEY);
    widget.SetPrompt("ghibli style");
    widget.HandleImageUpload([png], "blob:preview");
    assert widget.uploadedImage == Some(png);
    assert widget.xKey == SAMPLE_KEY && widget.isValidKey && widget.prompt == "ghibli style";
    ImageGen.SubmissionCalls(widget.Snapshot());
    var call := widget.HandleSubmit(Failed(Some("quota exceeded")));
    assert call == Some(Api.Edit("ghibli style", png, "nano-banana"));
    assert FailureMessage(Some("quota exceeded")) == "quota exceeded";
    assert widget.error == "quota exceeded" && widget.toastMessage == "quota exceeded";
    assert widget.imageUrl == "" && !widget.isLoading;
  }

  /** A text file is refused and nothing is staged. */
  method NonImageIsRefused()
  {
    var text := Api.File("notes.txt", "text/plain");
    IsImageFileIffPrefix(text);
    var client := new Api.Client(map[]);
    var widget := new ImageGen.Generator(client, map[]);
    widget.HandleImageUpload([text], "blob:preview");
    assert widget.uploadedImage.None? && widget.error == MSG_NOT_IMAGE;
  }

  /** A case overlay refuses to generate until an image is dropped, then edits with the case's prompt. */
  method CaseNeedsImage()
  {
    var png := Api.File("photo.png", "image/png");
    IsImageFileIffPrefix(png);
    var overlay := new CaseGen.CaseSession("turn it into a figurine");
    var call := overlay.HandleGenerateImage(Succeeded("https://x/out.png"));
    assert call.None? && overlay.error == CaseGen.MSG_UPLOAD_FIRST && overlay.resultImageUrl.None?;
    overlay.HandleDrop([png], "blob:preview");
    call := overlay.ClickGenerate(Succeeded("https://x/out.png"));
    assert call == Some(Api.Edit("turn it into a figurine", png, "nano-banana"));
    assert overlay.resultImageUrl == Some("https://x/out.png") && !overlay.isLoading;
  }
}
