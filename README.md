# Image generator pages: compression, requests and the video route

This project models the core of a Next.js web application with two image generator pages. It
also models the server route they use to animate a generated image.

- `compressImage` (utils/imageCompression.ts) decodes an uploaded picture and scales it to fit a
  bounding box, keeping its aspect ratio. It then draws it on a white canvas and encodes it as
  JPEG. While the result is over 4 MiB it starts again at 0.8 times the quality.
- `KlingKolorsGenerator` is the virtual try-on page. It takes a photo of the user and a garment
  image, compresses both, and submits them with a size and a negative prompt. It shows the
  returned image and can turn that image into a short video through `/api/generate-video`.
- `FluxPulidGenerator` is the portrait page. It takes a single reference photo and a
  description, and submits them with the generation settings.
- `POST /api/generate-video` reads `imageUrl` and `prompt` from the JSON body. It submits a
  16:9 image-to-video job to the Luma Dream Machine model through the fal queue, and answers
  with the video URL or a JSON error.

Modules:

- `Wrappers` holds Option and Result.
- `Text` holds the decimal text of numbers, ECMAScript white space and `trim`.
- `ImageCompression` models `compressImage`.
- `Http` holds the JSON bodies, the form fields, a fetch outcome, and the status check and
  error fallback that every client handler shares.
- `VideoRoute` models the route.
- `KlingKolors` and `FluxPulid` model the two components.
- `Pipeline` composes the try-on page's video request with the route.

How the model is built:

- Each component's state variables are the fields of a class.
- Each event handler is a method with a `modifies` clause that updates those fields the way the
  React setters do.
- An async handler is split at its `await`. `Begin…` runs the validation and clearing. It
  returns the request it sends, or None when it sends nothing. `Finish…` takes the fetch
  outcome and runs the rest, `finally` included. `Handle…` runs both.
- The size clamp in `compressImage` is an imperative method that reassigns width and height as
  the source does. It is proved equal to a declarative function.
- `compressImage`'s self-recursive retry is modelled as a recursive function over the attempts.
- These behaviours are parameters of the model:
  - the browser: whether the 30 s timer fires, whether a 2d context exists, and the encoded
    size for a canvas size and quality;
  - what a file decodes to;
  - the object URL of a blob;
  - every fetch outcome;
  - the fal queue's answer for a job.

## Model

Plain definitions without a contract of their own have a row that names the members whose
contracts pin them.

| member | source | states |
|---|---|---|
| Text.NatToString | components/KlingKolorsGenerator.tsx:144 | the text of a status or step count is a non-empty string of decimal digits without a leading zero, as a template literal or `toString()` prints it |
| Text.NatToStringRoundTrip | components/KlingKolorsGenerator.tsx:144 | reading the digits back gives the number, so the text is a faithful encoding |
| Text.NatToStringInjective | components/FluxPulidGenerator.tsx:125 | distinct numbers print differently |
| Text.TenthsToString | components/FluxPulidGenerator.tsx:126 | `guidanceScale.toString()` for a value on the 0.1 slider grid is the text of the whole part, alone when the value is whole, and otherwise followed by "." and the tenths digit (so 17.5 is "17.5", 20.0 is "20") |
| Text.TenthsWholeIffDigits | components/FluxPulidGenerator.tsx:126 | the guidance text is all digits exactly when the value is whole |
| Text.TenthsToStringInjective | components/FluxPulidGenerator.tsx:126 | distinct guidance values print differently, so the value can be read back from the form field |
| Text.BoolToString | components/FluxPulidGenerator.tsx:128 | `enableSafetyChecker.toString()`: "true" or "false"; a plain conversion whose use is pinned by FluxPulid.FluxPulidGenerator.BuildForm |
| Text.TrimStartRemovesBlankPrefix | components/FluxPulidGenerator.tsx:111 | the left half of `trim` drops a prefix made only of white space, and what is left is empty or starts with a non-white-space character |
| Text.TrimEndRemovesBlankSuffix | components/FluxPulidGenerator.tsx:111 | the right half of `trim` drops a suffix made only of white space, and what is left is empty or ends with a non-white-space character |
| Text.Trim | components/FluxPulidGenerator.tsx:111 | `String.prototype.trim` as the right half applied to the left half; what it removes is stated by TrimStartRemovesBlankPrefix and TrimEndRemovesBlankSuffix, and when it gives "" by TrimEmptyIffBlank |
| Text.TrimEmptyIffBlank | components/FluxPulidGenerator.tsx:111 | `s.trim() === ""` holds exactly when every character of s is ECMAScript white space or a line terminator |
| ImageCompression.MessagesDistinct | utils/imageCompression.ts:78-148 | each rejection of compressImage carries its own message ("Image load timeout", "Could not load image", "Could not get canvas context", "Could not compress image") |
| ImageCompression.Message | utils/imageCompression.ts:78-148 | the Error message each rejection carries (timeout at line 78, context at 111, null blob at 124, load error at 148), plus the model-only exhaustion text; stated distinct by MessagesDistinct and used by FirstAttemptRejections |
| ImageCompression.Round | utils/imageCompression.ts:96 | Math.round gives the integer within one half of its argument, halves going up |
| ImageCompression.RoundNonNegative | utils/imageCompression.ts:96 | a rounded canvas side is never negative |
| ImageCompression.DivideByRatio | utils/imageCompression.ts:92-101 | dividing by the aspect ratio w/h is multiplying by h/w and conversely, so each clamp computes maxWidth*h/w or maxHeight*w/h |
| ImageCompression.RoundDiv | utils/imageCompression.ts:96 | integer rounded division: 2dq lies within d of 2n |
| ImageCompression.RoundDivIsRound | utils/imageCompression.ts:96 | Math.round(n / d) equals the integer rounded division |
| ImageCompression.RoundDivAtMost | utils/imageCompression.ts:94-102 | rounding a quotient below b never exceeds b, so neither clamp overshoots the other bound's starting value |
| ImageCompression.RoundDivAbove | utils/imageCompression.ts:99-101 | a rounded quotient above b comes from a quotient above b |
| ImageCompression.RoundDivError | utils/imageCompression.ts:96 | the rounded quotient times d misses n by at most d/2 |
| ImageCompression.ClampedHeight | utils/imageCompression.ts:96 | `Math.round(width / aspectRatio)` with width = maxWidth, as a plain definition; its integer form is WidthClampExact |
| ImageCompression.ClampedWidth | utils/imageCompression.ts:101 | `Math.round(height * aspectRatio)` with height = maxHeight, as a plain definition; its integer form is HeightClampExact |
| ImageCompression.ScaleToFit | utils/imageCompression.ts:89-102 | the two reassigning clamps compute exactly the declarative FitWithin: unchanged when the image fits, the width clamp when its height then fits, the height clamp otherwise |
| ImageCompression.FitWithin | utils/imageCompression.ts:89-102 | the clamp every attempt draws at, as a function; its bounds are FitWithinBounds, its aspect ratio FitWithinAspect, and the source's reassignments are proved to compute it by ScaleToFit |
| ImageCompression.WidthClampExact | utils/imageCompression.ts:94-97 | the width clamp's height is Math.round(maxWidth*h/w), an integer rounded division |
| ImageCompression.HeightClampExact | utils/imageCompression.ts:99-102 | the height clamp's width is Math.round(maxHeight*w/h), an integer rounded division |
| ImageCompression.FitWithinIntegers | utils/imageCompression.ts:89-102 | the real-valued clamp agrees with its integer form on every input |
| ImageCompression.FitWithinExactBounds | utils/imageCompression.ts:89-102 | the integer clamp stays within both bounds and never enlarges either side |
| ImageCompression.FitWithinBounds | utils/imageCompression.ts:89-102 | the canvas lies within maxWidth x maxHeight and never enlarges the image; it is the image's own size when that already fits, and otherwise meets at least one bound exactly |
| ImageCompression.WidthClampAspect | utils/imageCompression.ts:94-97 | after the width clamp, the canvas deviates from the image's aspect ratio only by rounding, by at most half a pixel of the width |
| ImageCompression.HeightClampAspect | utils/imageCompression.ts:99-102 | after the height clamp, the deviation from the aspect ratio is at most half a pixel of the height |
| ImageCompression.FitWithinExactAspect | utils/imageCompression.ts:89-102 | the integer clamp keeps the source size when it fits; otherwise the clamped side equals its bound and the computed side is within half a pixel of the exact value |
| ImageCompression.FitWithinAspect | utils/imageCompression.ts:89-102 | an image that fits keeps its size (no skew); one clamped by width gets width maxWidth and a height within half a pixel of maxWidth·h/w (2·abs(width·h − height·w) ≤ w); one clamped by height gets height maxHeight and a width within half a pixel of maxHeight·w/h (≤ h) |
| ImageCompression.FitWithinExamples | utils/imageCompression.ts:89-102 | a 4000x3000 photo is drawn at 1024x768 and a 3000x4000 one at 768x1024 within 1024x1024 |
| ImageCompression.TallImageAspect | utils/imageCompression.ts:94-97 | a tall 3x7 image clamped by width into 2x10 becomes 2x5, within half a pixel of the exact height 14/3 |
| ImageCompression.Attempt | utils/imageCompression.ts:75-149 | one load-and-encode attempt rejects only with one of the four errors the source raises |
| ImageCompression.AttemptOutcomes | utils/imageCompression.ts:75-149 | every attempt, first or retry, checks in the source's order: a timeout rejects with "Image load timeout", a load error with "Could not load image", a missing context with "Could not get canvas context", a null blob with "Could not compress image"; a blob over 4 MiB is oversized, any other is the attempt's result at the FitWithin size |
| ImageCompression.CompressAttempts | utils/imageCompression.ts:121-138 | a resolved blob is at most 4 MiB, comes from an attempt in the allowed range, and has the canvas size FitWithin chooses for the decoded file |
| ImageCompression.CompressImage | utils/imageCompression.ts:1-151 | a call of compressImage resolves only with a blob of at most 4 MiB from one of the allowed attempts, drawn at the size FitWithin chooses for the decoded file |
| ImageCompression.JpegFile | components/KlingKolorsGenerator.tsx:42-45 | `new File([blob], name, { type: "image/jpeg" })`: the blob's size under the given name, as a plain definition; pinned by the ProcessAndCompressImage rows |
| ImageCompression.RetriedQualityStep | utils/imageCompression.ts:131 | multiplying by 0.8 once more is one more retry: q·0.8^m·0.8 = q·0.8^(m+1) |
| ImageCompression.ResolvedFrom | utils/imageCompression.ts:121-138 | the attempt that resolves ran at the starting quality times 0.8 per retry, every earlier attempt produced a blob over 4 MiB, and the blob is that attempt's own result |
| ImageCompression.RetryQuality | utils/imageCompression.ts:129-134 | after n oversized attempts, the retry chain goes on exactly as a fresh call at quality·0.8^n with the same file and bounds |
| ImageCompression.ResolvedQuality | utils/imageCompression.ts:121-138 | whatever compressImage resolves with is at most 4 MiB and was encoded at quality·0.8^k after k oversized attempts |
| ImageCompression.NoRetryWhenFirstFits | utils/imageCompression.ts:137-138 | if the first blob is within 4 MiB, it is resolved at once at the caller's quality |
| ImageCompression.FirstAttemptRejections | utils/imageCompression.ts:75-149 | a timeout, a load error, a missing context and a null blob each reject the whole call with their own message |
| ImageCompression.RetryStep | utils/imageCompression.ts:129-134 | an oversized blob leads to the same call at 0.8 times the quality |
| ImageCompression.RejectedFrom | utils/imageCompression.ts:121-134 | any rejection other than exhaustion, from any attempt on, is the error of one attempt k in range, run at q·0.8^(k−a), passed on unchanged by `.catch(reject)`, after every earlier attempt was oversized |
| ImageCompression.RejectedQuality | utils/imageCompression.ts:121-149 | whatever compressImage rejects with (other than exhaustion) is the error of attempt k at quality·0.8^k after k oversized attempts |
| ImageCompression.ExhaustedFrom | utils/imageCompression.ts:129-134 | from any attempt on, the retry chain gives up exactly when every remaining attempt is oversized |
| ImageCompression.Exhausted | utils/imageCompression.ts:129-134 | the bounded retry chain gives up exactly when all allowed attempts produce blobs over 4 MiB |
| Http.Settle | components/KlingKolorsGenerator.tsx:137-147 | a handler gets a body only from an ok response whose body parses, and then exactly that body; a non-ok response always throws a non-empty message; a rejected fetch throws its own message, and an ok response whose body does not parse throws the parse error's message |
| Http.BodyOrEmpty | components/KlingKolorsGenerator.tsx:143 | `await response.json().catch(() => ({}))`: the parsed body, or `{}` when it does not parse; a plain definition stated through SettleFailedStatus |
| Http.ThrownMessage | app/api/generate-video/route.ts:57 | `error instanceof Error ? error.message : "Unknown error"`, a plain definition; its uses are stated by VideoRoute.SubmittedOutcomes and VideoRoute.UnparsableBody |
| Http.SettleFailedStatus | components/KlingKolorsGenerator.tsx:142-145 | a non-ok response throws the body's error when it is truthy (an unparsable body counts as `{}`), and otherwise the fallback prefix followed by the status |
| Http.FallbackMessageInjective | components/FluxPulidGenerator.tsx:147-150 | two fallback messages with the same prefix are equal only for the same status |
| VideoRoute.Post | app/api/generate-video/route.ts:11-77 | every reply is JSON with status 200, 400 or 500; a job is submitted iff the body parses and both imageUrl and prompt are truthy, and then with those two values and aspect ratio 16:9; the status is 200 iff the job resolves with a truthy video URL, and then the body is `{ videoUrl }`; every other reply carries an error and no videoUrl |
| VideoRoute.MissingFields | app/api/generate-video/route.ts:15-20 | status 400 is answered exactly when imageUrl or prompt is falsy, with the fixed message and without subscribing |
| VideoRoute.OtherFieldsIgnored | app/api/generate-video/route.ts:13 | only imageUrl and prompt are read: bodies agreeing on those get the same answer whatever else they ask for |
| VideoRoute.JobAspectAlways | app/api/generate-video/route.ts:23-28 | the submitted job always asks for 16:9 |
| VideoRoute.QueueUpdatesIgnored | app/api/generate-video/route.ts:30-37 | queue status updates and their logs never change the reply or the job |
| VideoRoute.SubmittedOutcomes | app/api/generate-video/route.ts:40-63 | a submitted job gives 200 with the URL, 500 "Failed to generate video: No video URL in response" for a result without one, or 500 with the rejection's message or "Unknown error" |
| VideoRoute.UnparsableBody | app/api/generate-video/route.ts:65-75 | a body whose parse throws is answered with 500 "Internal server error: " and the message, without subscribing |
| VideoRoute.ServerErrorsDistinct | app/api/generate-video/route.ts:53-75 | the two kinds of 500 are told apart by their prefix: "Failed to generate video: " exactly when a job was submitted, "Internal server error: " exactly when none was |
| KlingKolors.ProcessAndCompressImage | components/KlingKolorsGenerator.tsx:39-53 | succeeds iff compressImage at 1024x1024 and quality 0.8 resolves; then the compressed file is exactly the resolved blob as a JPEG file under the original name (so at most 4 MiB), with the blob's object URL; every failure has the one fixed processing message |
| KlingKolors.MotionRequest | components/KlingKolorsGenerator.tsx:196-202 | the JSON body of the motion request: the generated image's URL, the fixed prompt, aspect_ratio "9:16", "720p" and "5s"; what the route does with it is Pipeline.MotionThroughRoute |
| KlingKolors.SubmitOutcome | components/KlingKolorsGenerator.tsx:137-153 | the try block yields the image URL iff the response settles to a body with a truthy `image.url`; an ok body without one fails with "No image URL in response"; earlier failures pass through unchanged |
| KlingKolors.MotionOutcome | components/KlingKolorsGenerator.tsx:191-217 | the motion request yields the video URL iff the response settles to a body with a truthy `videoUrl`; otherwise "No video URL in response" or the earlier failure |
| KlingKolors.SubmitFailureMessages | components/KlingKolorsGenerator.tsx:142-151 | the reason shown for a failed submission is the body's error, "HTTP error! status: " and the status, or the missing image URL |
| KlingKolors.MotionFailureMessages | components/KlingKolorsGenerator.tsx:205-214 | the reason shown for a failed motion request is the body's error, "Video generation failed: " and the status, or the missing video URL |
| KlingKolors.KlingKolorsGenerator.constructor | components/KlingKolorsGenerator.tsx:17-37 | the first render's state: the default negative prompt, size "M" (one of the offered sizes), no images, no results, both flags down, no error |
| KlingKolors.KlingKolorsGenerator.OnDropHuman | components/KlingKolorsGenerator.tsx:55-68 | an empty drop changes nothing; otherwise the photo and its preview are replaced by the compressed first file, or only the error is set to the processing message |
| KlingKolors.KlingKolorsGenerator.OnDropGarment | components/KlingKolorsGenerator.tsx:70-83 | the same for the garment image and its preview |
| KlingKolors.KlingKolorsGenerator.BeginSubmit | components/KlingKolorsGenerator.tsx:107-128 | without a photo, or then without a garment, only the matching error is set and nothing is sent; otherwise the loading flag goes up, the error and both results are cleared, and the four form fields are built in order |
| KlingKolors.KlingKolorsGenerator.BuildForm | components/KlingKolorsGenerator.tsx:124-128 | the form holds referenceImage, garmentImage, size and negativePrompt, in that order, with the current state |
| KlingKolors.KlingKolorsGenerator.FinishSubmit | components/KlingKolorsGenerator.tsx:153-165 | the image URL is shown, or "Generation failed: " and the reason, and the loading flag always comes down |
| KlingKolors.KlingKolorsGenerator.HandleSubmit | components/KlingKolorsGenerator.tsx:107-166 | a missing photo or garment changes only the error; a validated submission sends the four fields built from the state it started in and ends with loading off, the video cleared, and either the new image with no error or no image with "Generation failed: " and the reason |
| KlingKolors.KlingKolorsGenerator.BeginAddMotion | components/KlingKolorsGenerator.tsx:178-202 | nothing happens without a generated image; otherwise the video flag goes up, the error is cleared, and the fixed motion request for that image is sent |
| KlingKolors.KlingKolorsGenerator.FinishAddMotion | components/KlingKolorsGenerator.tsx:205-238 | the video URL is shown, or "Failed to generate video: " and the reason, and the video flag always comes down |
| KlingKolors.KlingKolorsGenerator.HandleAddMotion | components/KlingKolorsGenerator.tsx:178-239 | animating never changes the generated image; without one it is a no-op; otherwise it ends with the flag down and the video or the prefixed error |
| FluxPulid.CheckInputs | components/FluxPulidGenerator.tsx:106-114 | a submission passes iff there is a reference image and the description is not blank; the reference check comes first, each with its own message |
| FluxPulid.SubmitOutcome | components/FluxPulidGenerator.tsx:142-158 | the try block yields the first image's URL iff the response settles to a body whose `images[0].url` is truthy; otherwise "No image URL in response" or the earlier failure |
| FluxPulid.HasFirstImageUrl | components/FluxPulidGenerator.tsx:154 | `data.images?.[0]?.url` is truthy, a plain definition; its use is stated by FluxPulid.SubmitOutcome and FluxPulid.NoFirstImage |
| FluxPulid.NoFirstImage | components/FluxPulidGenerator.tsx:154-156 | an ok response with no `images`, an empty array or a first image without a URL fails with "No image URL in response" |
| FluxPulid.SubmitFailedStatus | components/FluxPulidGenerator.tsx:147-150 | a non-ok response fails with the body's error, or "HTTP error! status: " and the status |
| FluxPulid.FluxPulidGenerator.constructor | components/FluxPulidGenerator.tsx:21-51 | the first render's state: empty prompt, the default negative prompt, landscape_4_3 (one of the offered sizes), 50 steps, guidance 17.5, safety checker on, no image, not loading, no error |
| FluxPulid.FluxPulidGenerator.ProcessAndCompressImage | components/FluxPulidGenerator.tsx:54-72 | answers true iff compressImage at 1024x1024 and quality 0.8 resolves, then keeping the JPEG file (at most 4 MiB, original name) and its object URL; otherwise sets the processing message and keeps the old image. The component never calls this function; its drop handler repeats the steps inline |
| FluxPulid.FluxPulidGenerator.OnDrop | components/FluxPulidGenerator.tsx:74-96 | an empty drop changes nothing; otherwise the first file's compressed JPEG and preview replace the reference image, or only the processing error is set (the model reuses ProcessAndCompressImage for the inline steps, which are the same) |
| FluxPulid.FluxPulidGenerator.BeginSubmit | components/FluxPulidGenerator.tsx:105-128 | a failed check sets only its message and sends nothing; otherwise the loading flag goes up, the error and image are cleared, and the seven form fields are built |
| FluxPulid.FluxPulidGenerator.BuildForm | components/FluxPulidGenerator.tsx:121-128 | the form holds prompt, referenceImage, imageSize, the step count and guidance scale as decimal text, negativePrompt, and "true"/"false" for the safety checker, in that order |
| FluxPulid.FluxPulidGenerator.FinishSubmit | components/FluxPulidGenerator.tsx:158-170 | the first image's URL is shown, or "Generation failed: " and the reason, and the loading flag always comes down |
| FluxPulid.FluxPulidGenerator.HandleSubmit | components/FluxPulidGenerator.tsx:105-171 | without a reference image or with a blank description only the error changes; otherwise it sends the seven fields built from the state it started in and ends with loading off and the new image with no error, or no image with the prefixed reason |
| Pipeline.ErrorReplyRead | components/KlingKolorsGenerator.tsx:205-208 | a 500 reply from the route carrying an error is read by the page as exactly that error |
| Pipeline.VideoReplyRead | components/KlingKolorsGenerator.tsx:210-217 | a 200 reply from the route carrying a video URL is read by the page as exactly that URL |
| Pipeline.MotionThroughRoute | app/api/generate-video/route.ts:11-77 | the page's motion request always passes the route's check and starts a 16:9 job with the fixed prompt, although it asks for 9:16; the page then shows the URL, or an error whose route prefix "Failed to generate video: " repeats the page's own prefix |

## Left out

- The browser's image decoding, canvas drawing, JPEG codec and 30 s timer are a parameter. So are object URLs and their revocation. A decoded image is assumed to have positive width and height.
- `compressImage`'s first `onload`/`onerror` pair (utils/imageCompression.ts:6-69) is not modelled. It is overwritten before the image can load, so it never runs.
- ImageCompression.CompressImage: the source retries without limit. The model allows at most MaxAttempts = 10 attempts, then rejects with the model-only AttemptsExhausted. That the bound is reached only when all allowed attempts are oversized is proved in Exhausted.
- Math.round, the divisions in the clamp and the retry quality (quality·0.8ⁿ) are modelled on exact reals, not IEEE doubles.
- `fetch`, `fal.subscribe`, `fal.config` and the request body parse are inputs. Network failures and parse errors are outcomes carried as messages.
- The FAL_KEY check at module load (app/api/generate-video/route.ts:3-9) is not modelled. It is process configuration.
- The `/api/generate` route that both pages post to is not part of this model. Its answer is an input.
- `console` logging, `toast` notifications and `window.open` are not modelled. They do not affect state.
- handleEnhanceImage (components/KlingKolorsGenerator.tsx:168-176) is not modelled. It only shows a toast.
- JSX rendering, the dropzone configuration (accept image/*, a single file, maxSize 10 MiB) and the other UI files are not modelled. So are the onChange setters of the inputs and sliders. Their effect is the field values the handlers read.
- The `tryOnItem` state (KlingKolors) and `isSettingsExpanded` state (FluxPulid) are not modelled. No handler reads them.
- `lastModified: Date.now()` on the compressed file is not modelled. It is a clock reading.
- JSON fields are modelled as optional strings. Non-string values, a `null` body and the `JSON.stringify(err)` branch for thrown non-Error objects are left out. Every value thrown inside these handlers is an Error.
- React's asynchronous state batching and stale closures are not modelled. A setter takes effect when it is called.
- Text.TenthsToString: guidanceScale is modelled as a whole number of tenths (the slider's step is 0.1). JavaScript's printing of other doubles is not modelled.
