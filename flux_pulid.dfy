/**
  The portrait component FluxPulidGenerator: the user drops a reference photo, which is
  compressed, writes a description, and submits both with the generation settings to
  receive a generated image.

  As in KlingKolors, the state variables are class fields and handleSubmit is split at its
  `await` into BeginSubmit and FinishSubmit. The guidance scale slider moves in steps of
  0.1 and is kept as a whole number of tenths.
 */
module FluxPulid {
  import opened Wrappers
  import opened Text
  import opened ImageCompression
  import opened Http

  const InitialNegativePrompt := "bad quality, worst quality, text, signature, watermark, extra limbs"
  const InitialImageSize := "landscape_4_3"
  const InitialInferenceSteps: nat := 50
  /** 17.5 */
  const InitialGuidanceTenths: nat := 175

  /** The image sizes on offer; `imageSize` starts as "landscape_4_3". */
  const ImageSizes := ["square_hd", "square", "portrait_4_3", "portrait_16_9", "landscape_4_3", "landscape_16_9"]

  const NoReferenceMessage := "Please upload a reference image"
  const NoPromptMessage := "Please enter a vision description"
  const ProcessingMessage := "Error processing image. Please try another image."
  const HttpErrorPrefix := "HTTP error! status: "
  const NoImageUrlMessage := "No image URL in response"
  const GenerationFailedPrefix := "Generation failed: "

  /**
    handleSubmit's two checks, in order: a reference image, then a description that is
    not empty and not only white space (`!prompt || prompt.trim() === ""`).
   */
  function CheckInputs(referenceImage: Option<ImageFile>, prompt: string): (r: Option<string>)
    ensures r.None? <==> referenceImage.Some? && !IsBlank(prompt)
    ensures referenceImage.None? ==> r == Some(NoReferenceMessage)
    ensures referenceImage.Some? && IsBlank(prompt) ==> r == Some(NoPromptMessage)
  {
    TrimEmptyIffBlank(prompt);
    if referenceImage.None? then Some(NoReferenceMessage)
    else if prompt == "" || Trim(prompt) == "" then Some(NoPromptMessage)
    else None
  }

  /** `data.images?.[0]?.url` is truthy. */
  predicate HasFirstImageUrl(data: ApiBody) {
    data.images.Some? && |data.images.value| > 0 && Truthy(data.images.value[0].url)
  }

  /**
    What handleSubmit's `try` block ends with once the form is sent: the URL of the first
    generated image, or the message of the Error it throws.
   */
  function SubmitOutcome(fetched: Fetched): (r: Result<string, string>)
    ensures r.Success? <==> Settle(fetched, HttpErrorPrefix).Success? && HasFirstImageUrl(Settle(fetched, HttpErrorPrefix).value)
    ensures r.Success? ==> Some(r.value) == fetched.response.payload.body.images.value[0].url && r.value != ""
    ensures r.Failure? && Settle(fetched, HttpErrorPrefix).Success? ==> r.error == "No image URL in response"
    ensures Settle(fetched, HttpErrorPrefix).Failure? ==> r == Failure(Settle(fetched, HttpErrorPrefix).error)
  {
    match Settle(fetched, HttpErrorPrefix)
    case Failure(m) => Failure(m)
    case Success(data) =>
      if HasFirstImageUrl(data) then Success(data.images.value[0].url.value) else Failure(NoImageUrlMessage)
  }

  /** An ok response with an empty `images` array, or a first image without a URL, is a failure. */
  lemma NoFirstImage(body: ApiBody, status: nat)
    requires 200 <= status <= 299
    requires body.images.None? || body.images == Some([]) || (|body.images.value| > 0 && body.images.value[0].url.None?)
    ensures SubmitOutcome(Responded(Response(status, Json(body)))) == Failure("No image URL in response")
  {
  }

  /** A non-ok response fails with the body's error text, or with the status when there is none. */
  lemma SubmitFailedStatus(response: Response)
    requires !Ok(response)
    ensures var data := BodyOrEmpty(response.payload);
      SubmitOutcome(Responded(response))
        == Failure(if Truthy(data.error) then data.error.value else "HTTP error! status: " + NatToString(response.status))
  {
  }

  class FluxPulidGenerator {
    var prompt: string
    var negativePrompt: string
    var referenceImage: Option<ImageFile>
    var referenceImagePreview: Option<string>
    var imageSize: string
    var numInferenceSteps: nat
    var guidanceTenths: nat
    var enableSafetyChecker: bool
    var generatedImage: Option<string>
    var isLoading: bool
    var error: string

    /** The state on first render. */
    constructor()
      ensures prompt == "" && negativePrompt == InitialNegativePrompt && imageSize == InitialImageSize && imageSize in ImageSizes
      ensures numInferenceSteps == InitialInferenceSteps && guidanceTenths == InitialGuidanceTenths && enableSafetyChecker
      ensures referenceImage.None? && referenceImagePreview.None? && generatedImage.None?
      ensures !isLoading && error == ""
    {
      prompt, negativePrompt := "", InitialNegativePrompt;
      referenceImage, referenceImagePreview := None, None;
      imageSize := InitialImageSize;
      numInferenceSteps, guidanceTenths, enableSafetyChecker := InitialInferenceSteps, InitialGuidanceTenths, true;
      generatedImage := None;
      isLoading, error := false, "";
    }

    /**
      processAndCompressImage: compress to 1024x1024 at quality 0.8 and keep the JPEG file
      and its object URL, answering true; on any rejection show the processing error and
      answer false. The component defines it but never calls it: its drop handler repeats
      the same steps inline, which OnDrop models by calling this method.
     */
    method ProcessAndCompressImage(file: SourceFile, browser: Browser, objectUrl: string) returns (ok: bool)
      modifies this`referenceImage, this`referenceImagePreview, this`error
      ensures ok <==> CompressImage(file, DefaultMaxSide, DefaultMaxSide, DefaultQuality, browser, MaxAttempts).Success?
      ensures ok ==>
        var blob := CompressImage(file, DefaultMaxSide, DefaultMaxSide, DefaultQuality, browser, MaxAttempts).value;
        && referenceImage == Some(ImageFile(file.name, JpegType, blob.size))
        && blob.size <= MaxBlobBytes
        && referenceImagePreview == Some(objectUrl) && error == old(error)
      ensures !ok ==>
        && referenceImage == old(referenceImage) && referenceImagePreview == old(referenceImagePreview)
        && error == ProcessingMessage
    {
      match CompressImage(file, DefaultMaxSide, DefaultMaxSide, DefaultQuality, browser, MaxAttempts) {
        case Success(blob) =>
          referenceImage := Some(JpegFile(file.name, blob));
          referenceImagePreview := Some(objectUrl);
          ok := true;
        case Failure(_) =>
          error := ProcessingMessage;
          ok := false;
      }
    }

    /** onDrop: the steps of processAndCompressImage, which the drop handler repeats inline, for the first dropped file. */
    method OnDrop(acceptedFiles: seq<SourceFile>, browser: Browser, objectUrl: string)
      modifies this`referenceImage, this`referenceImagePreview, this`error
      ensures |acceptedFiles| == 0 ==>
        referenceImage == old(referenceImage) && referenceImagePreview == old(referenceImagePreview) && error == old(error)
      ensures |acceptedFiles| > 0 ==>
        match CompressImage(acceptedFiles[0], DefaultMaxSide, DefaultMaxSide, DefaultQuality, browser, MaxAttempts)
        case Success(blob) =>
          referenceImage == Some(JpegFile(acceptedFiles[0].name, blob)) && referenceImagePreview == Some(objectUrl) && error == old(error)
        case Failure(_) =>
          referenceImage == old(referenceImage) && referenceImagePreview == old(referenceImagePreview) && error == ProcessingMessage
    {
      if |acceptedFiles| > 0 {
        var _ := ProcessAndCompressImage(acceptedFiles[0], browser, objectUrl);
      }
    }

    /**
      handleSubmit up to the request: check the reference image, then the description; once
      both pass, raise the loading flag, clear the error and the image, and build the form
      with its seven fields in order.
     */
    method BeginSubmit() returns (form: Option<seq<FormField>>)
      modifies this`isLoading, this`error, this`generatedImage
      ensures CheckInputs(old(referenceImage), old(prompt)).Some? ==>
        && form.None? && error == CheckInputs(old(referenceImage), old(prompt)).value
        && isLoading == old(isLoading) && generatedImage == old(generatedImage)
      ensures CheckInputs(old(referenceImage), old(prompt)).None? ==>
        && isLoading && error == "" && generatedImage.None?
        && form == Some([
             FormField("prompt", TextValue(prompt)),
             FormField("referenceImage", FileValue(referenceImage.value)),
             FormField("imageSize", TextValue(imageSize)),
             FormField("numInferenceSteps", TextValue(NatToString(numInferenceSteps))),
             FormField("guidanceScale", TextValue(TenthsToString(guidanceTenths))),
             FormField("negativePrompt", TextValue(negativePrompt)),
             FormField("enableSafetyChecker", TextValue(BoolToString(enableSafetyChecker)))])
    {
      var problem := CheckInputs(referenceImage, prompt);
      if problem.Some? {
        error := problem.value;
        return None;
      }
      isLoading := true;
      error := "";
      generatedImage := None;
      var fields := BuildForm();
      form := Some(fields);
    }

    /**
      The submission form, appended field by field: prompt, reference image, image size,
      the step count and guidance scale as decimal text, negative prompt, and the safety
      switch as "true" or "false".
     */
    method BuildForm() returns (fields: seq<FormField>)
      requires referenceImage.Some?
      ensures fields == [
        FormField("prompt", TextValue(prompt)),
        FormField("referenceImage", FileValue(referenceImage.value)),
        FormField("imageSize", TextValue(imageSize)),
        FormField("numInferenceSteps", TextValue(NatToString(numInferenceSteps))),
        FormField("guidanceScale", TextValue(TenthsToString(guidanceTenths))),
        FormField("negativePrompt", TextValue(negativePrompt)),
        FormField("enableSafetyChecker", TextValue(BoolToString(enableSafetyChecker)))]
    {
      fields := [];
      fields := fields + [FormField("prompt", TextValue(prompt))];
      fields := fields + [FormField("referenceImage", FileValue(referenceImage.value))];
      fields := fields + [FormField("imageSize", TextValue(imageSize))];
      fields := fields + [FormField("numInferenceSteps", TextValue(NatToString(numInferenceSteps)))];
      fields := fields + [FormField("guidanceScale", TextValue(TenthsToString(guidanceTenths)))];
      fields := fields + [FormField("negativePrompt", TextValue(negativePrompt))];
      fields := fields + [FormField("enableSafetyChecker", TextValue(BoolToString(enableSafetyChecker)))];
      assert fields == [fields[0], fields[1], fields[2], fields[3], fields[4], fields[5], fields[6]];
    }

    /** handleSubmit after the request: show the first image or the prefixed error, then lower the loading flag. */
    method FinishSubmit(fetched: Fetched)
      modifies this`isLoading, this`error, this`generatedImage
      ensures !isLoading
      ensures match SubmitOutcome(fetched)
        case Success(url) => generatedImage == Some(url) && error == old(error)
        case Failure(m) => generatedImage == old(generatedImage) && error == GenerationFailedPrefix + m
    {
      match SubmitOutcome(fetched) {
        case Success(url) =>
          generatedImage := Some(url);
        case Failure(m) =>
          error := GenerationFailedPrefix + m;
      }
      isLoading := false;
    }

    /**
      handleSubmit: without a reference image, or with a blank description, only the error
      changes and nothing is sent; otherwise it ends with the loading flag down and either
      the new image with no error or no image with "Generation failed: " and the reason.
     */
    method HandleSubmit(fetched: Fetched) returns (form: Option<seq<FormField>>)
      modifies this`isLoading, this`error, this`generatedImage
      ensures old(referenceImage).None? ==>
        && form.None? && error == NoReferenceMessage
        && isLoading == old(isLoading) && generatedImage == old(generatedImage)
      ensures old(referenceImage).Some? && IsBlank(old(prompt)) ==>
        && form.None? && error == NoPromptMessage
        && isLoading == old(isLoading) && generatedImage == old(generatedImage)
      ensures old(referenceImage).Some? && !IsBlank(old(prompt)) ==>
        && form == Some([
             FormField("prompt", TextValue(old(prompt))),
             FormField("referenceImage", FileValue(old(referenceImage).value)),
             FormField("imageSize", TextValue(old(imageSize))),
             FormField("numInferenceSteps", TextValue(NatToString(old(numInferenceSteps)))),
             FormField("guidanceScale", TextValue(TenthsToString(old(guidanceTenths)))),
             FormField("negativePrompt", TextValue(old(negativePrompt))),
             FormField("enableSafetyChecker", TextValue(BoolToString(old(enableSafetyChecker))))])
        && !isLoading
        && match SubmitOutcome(fetched)
           case Success(url) => generatedImage == Some(url) && error == ""
           case Failure(m) => generatedImage.None? && error == GenerationFailedPrefix + m
    {
      form := BeginSubmit();
      if form.Some? {
        FinishSubmit(fetched);
      }
    }
  }
}
