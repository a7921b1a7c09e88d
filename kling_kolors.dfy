/**
  The virtual try-on component KlingKolorsGenerator: the user drops a photo of themselves
  and a garment image, both are compressed, the pair is submitted for a try-on image, and
  the resulting image can then be animated into a short video through /api/generate-video.

  The component's state variables are the fields of a class, and each handler is a method
  that updates them as the setters do. An async handler is split at its `await`: the Begin
  method does everything up to the request and returns what it sends (None when it sends
  nothing); the Finish method takes what the request produced and does the rest, its
  `finally` included; the Handle method runs both. Decoding and encoding images is a
  Browser value, the object URL of a blob is an input, and so is the fetch outcome.
 */
module KlingKolors {
  import opened Wrappers
  import opened Text
  import opened ImageCompression
  import opened Http

  const InitialNegativePrompt := "bad quality, worst quality, blurry, distorted"
  const InitialSize := "M"

  /** The garment sizes on offer; `size` starts as "M". */
  const Sizes := ["S", "M", "L", "XL"]

  const NoHumanMessage := "Please upload a photo of yourself"
  const NoGarmentMessage := "Please upload a garment image"
  const ProcessingMessage := "Error processing image. Please try another image."
  const HttpErrorPrefix := "HTTP error! status: "
  const NoImageUrlMessage := "No image URL in response"
  const GenerationFailedPrefix := "Generation failed: "
  const VideoFailedPrefix := "Video generation failed: "
  const NoVideoUrlMessage := "No video URL in response"
  const MotionFailedPrefix := "Failed to generate video: "

  const MotionPrompt := "A fashion model showcasing clothing with subtle, natural movement in a professional studio setting"

  /** The compressed upload and the object URL of its blob, as processAndCompressImage returns them. */
  datatype Processed = Processed(compressedFile: ImageFile, objectUrl: string)

  /**
    processAndCompressImage: compress to 1024x1024 at quality 0.8 and wrap the blob as a
    JPEG file under the original name; any rejection becomes one Error with a fixed message.
   */
  function ProcessAndCompressImage(file: SourceFile, browser: Browser, objectUrl: string): (r: Result<Processed, string>)
    ensures r.Success? <==> CompressImage(file, DefaultMaxSide, DefaultMaxSide, DefaultQuality, browser, MaxAttempts).Success?
    ensures r.Success? ==>
      r.value.compressedFile == JpegFile(file.name, CompressImage(file, DefaultMaxSide, DefaultMaxSide, DefaultQuality, browser, MaxAttempts).value)
    ensures r.Success? ==>
      && r.value.compressedFile.name == file.name
      && r.value.compressedFile.mediaType == JpegType
      && r.value.compressedFile.byteSize <= MaxBlobBytes
      && r.value.objectUrl == objectUrl
    ensures r.Failure? ==> r.error == ProcessingMessage
  {
    match CompressImage(file, DefaultMaxSide, DefaultMaxSide, DefaultQuality, browser, MaxAttempts)
    case Success(blob) => Success(Processed(JpegFile(file.name, blob), objectUrl))
    case Failure(_) => Failure(ProcessingMessage)
  }

  /** The request body of handleAddMotion for a generated image. */
  function MotionRequest(imageUrl: string): VideoRequest {
    VideoRequest(Some(imageUrl), Some(MotionPrompt), Some("9:16"), Some("720p"), Some("5s"))
  }

  /**
    What handleSubmit's `try` block ends with once the form is sent: the image URL, or the
    message of the Error it throws (fetch failure, status, unparsable body, no URL).
   */
  function SubmitOutcome(fetched: Fetched): (r: Result<string, string>)
    ensures r.Success? <==>
      && Settle(fetched, HttpErrorPrefix).Success?
      && Settle(fetched, HttpErrorPrefix).value.image.Some?
      && Truthy(Settle(fetched, HttpErrorPrefix).value.image.value.url)
    ensures r.Success? ==> Some(r.value) == fetched.response.payload.body.image.value.url && r.value != ""
    ensures r.Failure? && Settle(fetched, HttpErrorPrefix).Success? ==> r.error == "No image URL in response"
    ensures Settle(fetched, HttpErrorPrefix).Failure? ==> r == Failure(Settle(fetched, HttpErrorPrefix).error)
  {
    match Settle(fetched, HttpErrorPrefix)
    case Failure(m) => Failure(m)
    case Success(data) =>
      if data.image.Some? && Truthy(data.image.value.url) then Success(data.image.value.url.value)
      else Failure(NoImageUrlMessage)
  }

  /** What handleAddMotion's `try` block ends with once the request is sent: the video URL or the Error's message. */
  function MotionOutcome(fetched: Fetched): (r: Result<string, string>)
    ensures r.Success? <==> Settle(fetched, VideoFailedPrefix).Success? && Truthy(Settle(fetched, VideoFailedPrefix).value.videoUrl)
    ensures r.Success? ==> Some(r.value) == fetched.response.payload.body.videoUrl && r.value != ""
    ensures r.Failure? && Settle(fetched, VideoFailedPrefix).Success? ==> r.error == "No video URL in response"
    ensures Settle(fetched, VideoFailedPrefix).Failure? ==> r == Failure(Settle(fetched, VideoFailedPrefix).error)
  {
    match Settle(fetched, VideoFailedPrefix)
    case Failure(m) => Failure(m)
    case Success(data) =>
      if Truthy(data.videoUrl) then Success(data.videoUrl.value) else Failure(NoVideoUrlMessage)
  }

  /**
    The reasons handleSubmit shows after "Generation failed: ": the body's error or the
    status for a non-ok response, the missing URL for an ok one.
   */
  lemma SubmitFailureMessages(response: Response)
    ensures var r := SubmitOutcome(Responded(response));
      var data := BodyOrEmpty(response.payload);
      && (!Ok(response) && Truthy(data.error) ==> r == Failure(data.error.value))
      && (!Ok(response) && !Truthy(data.error) ==> r == Failure(HttpErrorPrefix + NatToString(response.status)))
      && (Ok(response) && response.payload.Json? && !(data.image.Some? && Truthy(data.image.value.url)) ==>
            r == Failure(NoImageUrlMessage))
  {
  }

  /** The reasons handleAddMotion shows after "Failed to generate video: ". */
  lemma MotionFailureMessages(response: Response)
    ensures var r := MotionOutcome(Responded(response));
      var data := BodyOrEmpty(response.payload);
      && (!Ok(response) && Truthy(data.error) ==> r == Failure(data.error.value))
      && (!Ok(response) && !Truthy(data.error) ==> r == Failure(VideoFailedPrefix + NatToString(response.status)))
      && (Ok(response) && response.payload.Json? && !Truthy(data.videoUrl) ==> r == Failure(NoVideoUrlMessage))
  {
  }

  class KlingKolorsGenerator {
    var negativePrompt: string
    var humanImage: Option<ImageFile>
    var humanImagePreview: Option<string>
    var garmentImage: Option<ImageFile>
    var garmentImagePreview: Option<string>
    var size: string
    var generatedImage: Option<string>
    var generatedVideo: Option<string>
    var isLoading: bool
    var isGeneratingVideo: bool
    var error: string

    /** The state on first render. */
    constructor()
      ensures negativePrompt == InitialNegativePrompt && size == InitialSize && size in Sizes && error == ""
      ensures humanImage.None? && humanImagePreview.None? && garmentImage.None? && garmentImagePreview.None?
      ensures generatedImage.None? && generatedVideo.None? && !isLoading && !isGeneratingVideo
    {
      negativePrompt := InitialNegativePrompt;
      humanImage, humanImagePreview := None, None;
      garmentImage, garmentImagePreview := None, None;
      size := InitialSize;
      generatedImage, generatedVideo := None, None;
      isLoading, isGeneratingVideo := false, false;
      error := "";
    }

    /** onDropHuman: compress the first dropped file and show it, or show the processing error. */
    method OnDropHuman(acceptedFiles: seq<SourceFile>, browser: Browser, objectUrl: string)
      modifies this`humanImage, this`humanImagePreview, this`error
      ensures |acceptedFiles| == 0 ==>
        humanImage == old(humanImage) && humanImagePreview == old(humanImagePreview) && error == old(error)
      ensures |acceptedFiles| > 0 ==>
        match ProcessAndCompressImage(acceptedFiles[0], browser, objectUrl)
        case Success(p) => humanImage == Some(p.compressedFile) && humanImagePreview == Some(p.objectUrl) && error == old(error)
        case Failure(m) => humanImage == old(humanImage) && humanImagePreview == old(humanImagePreview) && error == m
    {
      if |acceptedFiles| > 0 {
        var file := acceptedFiles[0];
        match ProcessAndCompressImage(file, browser, objectUrl)
        case Success(p) =>
          humanImage := Some(p.compressedFile);
          humanImagePreview := Some(p.objectUrl);
        case Failure(m) =>
          error := m;
      }
    }

    /** onDropGarment: the same for the garment image. */
    method OnDropGarment(acceptedFiles: seq<SourceFile>, browser: Browser, objectUrl: string)
      modifies this`garmentImage, this`garmentImagePreview, this`error
      ensures |acceptedFiles| == 0 ==>
        garmentImage == old(garmentImage) && garmentImagePreview == old(garmentImagePreview) && error == old(error)
      ensures |acceptedFiles| > 0 ==>
        match ProcessAndCompressImage(acceptedFiles[0], browser, objectUrl)
        case Success(p) => garmentImage == Some(p.compressedFile) && garmentImagePreview == Some(p.objectUrl) && error == old(error)
        case Failure(m) => garmentImage == old(garmentImage) && garmentImagePreview == old(garmentImagePreview) && error == m
    {
      if |acceptedFiles| > 0 {
        var file := acceptedFiles[0];
        match ProcessAndCompressImage(file, browser, objectUrl)
        case Success(p) =>
          garmentImage := Some(p.compressedFile);
          garmentImagePreview := Some(p.objectUrl);
        case Failure(m) =>
          error := m;
      }
    }

    /**
      handleSubmit up to the request: check the human image, then the garment image; once
      both are there, raise the loading flag, clear the error and both results, and build
      the form field by field.
     */
    method BeginSubmit() returns (form: Option<seq<FormField>>)
      modifies this`isLoading, this`error, this`generatedImage, this`generatedVideo
      ensures old(humanImage).None? ==>
        && form.None? && error == NoHumanMessage
        && isLoading == old(isLoading) && generatedImage == old(generatedImage) && generatedVideo == old(generatedVideo)
      ensures old(humanImage).Some? && old(garmentImage).None? ==>
        && form.None? && error == NoGarmentMessage
        && isLoading == old(isLoading) && generatedImage == old(generatedImage) && generatedVideo == old(generatedVideo)
      ensures old(humanImage).Some? && old(garmentImage).Some? ==>
        && isLoading && error == "" && generatedImage.None? && generatedVideo.None?
        && form == Some([
             FormField("referenceImage", FileValue(humanImage.value)),
             FormField("garmentImage", FileValue(garmentImage.value)),
             FormField("size", TextValue(size)),
             FormField("negativePrompt", TextValue(negativePrompt))])
    {
      if humanImage.None? {
        error := NoHumanMessage;
        return None;
      }
      if garmentImage.None? {
        error := NoGarmentMessage;
        return None;
      }
      isLoading := true;
      error := "";
      generatedImage := None;
      generatedVideo := None;
      var fields := BuildForm();
      form := Some(fields);
    }

    /** The submission form, appended field by field: both images, the size and the negative prompt. */
    method BuildForm() returns (fields: seq<FormField>)
      requires humanImage.Some? && garmentImage.Some?
      ensures fields == [
        FormField("referenceImage", FileValue(humanImage.value)),
        FormField("garmentImage", FileValue(garmentImage.value)),
        FormField("size", TextValue(size)),
        FormField("negativePrompt", TextValue(negativePrompt))]
    {
      fields := [];
      fields := fields + [FormField("referenceImage", FileValue(humanImage.value))];
      fields := fields + [FormField("garmentImage", FileValue(garmentImage.value))];
      fields := fields + [FormField("size", TextValue(size))];
      fields := fields + [FormField("negativePrompt", TextValue(negativePrompt))];
      assert fields == [fields[0], fields[1], fields[2], fields[3]];
    }

    /** handleSubmit after the request: show the image or the prefixed error, then lower the loading flag. */
    method FinishSubmit(fetched: Fetched)
      modifies this`isLoading, this`error, this`generatedImage
      ensures !isLoading
      ensures match SubmitOutcome(fetched)
        case Success(url) => generatedImage == Some(url) && error == old(error)
        case Failure(m) => generatedImage == old(generatedImage) && error == GenerationFailedPrefix + m
    {
      match SubmitOutcome(fetched) {
        case Success(url) =>
          generatedImage := Some(url);
        case Failure(m) =>
          error := GenerationFailedPrefix + m;
      }
      isLoading := false;
    }

    /**
      handleSubmit: a submission that passes validation always ends with the loading flag
      down, the video cleared, and either the new image with no error or no image with
      "Generation failed: " and the reason.
     */
    method HandleSubmit(fetched: Fetched) returns (form: Option<seq<FormField>>)
      modifies this`isLoading, this`error, this`generatedImage, this`generatedVideo
      ensures old(humanImage).None? ==>
        && form.None? && error == NoHumanMessage
        && isLoading == old(isLoading) && generatedImage == old(generatedImage) && generatedVideo == old(generatedVideo)
      ensures old(humanImage).Some? && old(garmentImage).None? ==>
        && form.None? && error == NoGarmentMessage
        && isLoading == old(isLoading) && generatedImage == old(generatedImage) && generatedVideo == old(generatedVideo)
      ensures old(humanImage).Some? && old(garmentImage).Some? ==>
        && form == Some([
             FormField("referenceImage", FileValue(old(humanImage).value)),
             FormField("garmentImage", FileValue(old(garmentImage).value)),
             FormField("size", TextValue(old(size))),
             FormField("negativePrompt", TextValue(old(negativePrompt)))])
        && !isLoading && generatedVideo.None?
        && match SubmitOutcome(fetched)
           case Success(url) => generatedImage == Some(url) && error == ""
           case Failure(m) => generatedImage.None? && error == GenerationFailedPrefix + m
    {
      form := BeginSubmit();
      if form.Some? {
        FinishSubmit(fetched);
      }
    }

    /** handleAddMotion up to the request: nothing without a generated image; else raise the video flag and clear the error. */
    method BeginAddMotion() returns (request: Option<VideoRequest>)
      modifies this`isGeneratingVideo, this`error
      ensures !Truthy(old(generatedImage)) ==>
        request.None? && isGeneratingVideo == old(isGeneratingVideo) && error == old(error)
      ensures Truthy(old(generatedImage)) ==>
        request == Some(MotionRequest(generatedImage.value)) && isGeneratingVideo && error == ""
    {
      if !Truthy(generatedImage) {
        return None;
      }
      isGeneratingVideo := true;
      error := "";
      request := Some(MotionRequest(generatedImage.value));
    }

    /** handleAddMotion after the request: show the video or the prefixed error, then lower the video flag. */
    method FinishAddMotion(fetched: Fetched)
      modifies this`isGeneratingVideo, this`error, this`generatedVideo
      ensures !isGeneratingVideo
      ensures match MotionOutcome(fetched)
        case Success(url) => generatedVideo == Some(url) && error == old(error)
        case Failure(m) => generatedVideo == old(generatedVideo) && error == MotionFailedPrefix + m
    {
      match MotionOutcome(fetched) {
        case Success(url) =>
          generatedVideo := Some(url);
        case Failure(m) =>
          error := MotionFailedPrefix + m;
      }
      isGeneratingVideo := false;
    }

    /**
      handleAddMotion: a no-op without a generated image; otherwise it ends with the video
      flag down and the video or "Failed to generate video: " and the reason, and it never
      touches the generated image, whatever the response.
     */
    method HandleAddMotion(fetched: Fetched) returns (request: Option<VideoRequest>)
      modifies this`isGeneratingVideo, this`error, this`generatedVideo
      ensures generatedImage == old(generatedImage)
      ensures !Truthy(old(generatedImage)) ==>
        && request.None? && isGeneratingVideo == old(isGeneratingVideo)
        && error == old(error) && generatedVideo == old(generatedVideo)
      ensures Truthy(old(generatedImage)) ==>
        && request == Some(MotionRequest(generatedImage.value))
        && !isGeneratingVideo
        && match MotionOutcome(fetched)
           case Success(url) => generatedVideo == Some(url) && error == ""
           case Failure(m) => generatedVideo == old(generatedVideo) && error == MotionFailedPrefix + m
    {
      request := BeginAddMotion();
      if request.Some? {
        FinishAddMotion(fetched);
      }
    }
  }
}
