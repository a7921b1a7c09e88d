/**
  What the generator components and the video route exchange: the JSON bodies they read
  and write, the form fields of a submission, a fetch outcome, and the common first half of
  every response handler (status check, error body, JSON parse).

  JSON fields are modelled as optional strings; JavaScript truthiness of such a field is
  "present and not the empty string".
 */
module Http {
  import opened Wrappers
  import opened Text
  import opened ImageCompression

  /** `if (x)` on a string-valued JSON field or state variable. */
  predicate Truthy(s: Option<string>) {
    s.Some? && s.value != ""
  }

  /** An entry of `images` or the `image` object in a generation response. */
  datatype GeneratedImage = GeneratedImage(url: Option<string>)

  /** The fields any of the JSON bodies here may carry; absent fields are None. */
  datatype ApiBody = ApiBody(
    error: Option<string>,
    image: Option<GeneratedImage>,
    images: Option<seq<GeneratedImage>>,
    videoUrl: Option<string>)

  /** `{}` */
  const EmptyBody := ApiBody(None, None, None, None)

  /** `{ error: message }` */
  function ErrorBody(message: string): ApiBody {
    ApiBody(Some(message), None, None, None)
  }

  /** A response body: JSON, or text whose parse throws a SyntaxError with this message. */
  datatype Payload = Json(body: ApiBody) | NotJson(message: string)

  datatype Response = Response(status: nat, payload: Payload)

  /** `response.ok`: a status in 200..299. */
  predicate Ok(response: Response) {
    200 <= response.status <= 299
  }

  /** What `await fetch(...)` yields: a response, or a rejection with a TypeError. */
  datatype Fetched = Responded(response: Response) | NetworkFailure(message: string)

  /** A value caught by `catch`: an Error with its message, or anything else. */
  datatype Thrown = ErrorValue(message: string) | OtherValue

  /** `error instanceof Error ? error.message : "Unknown error"` */
  function ThrownMessage(t: Thrown): string {
    match t
    case ErrorValue(m) => m
    case OtherValue => "Unknown error"
  }

  /** The JSON body of a video request: every key the client sends and the route might read. */
  datatype VideoRequest = VideoRequest(
    imageUrl: Option<string>,
    prompt: Option<string>,
    aspectRatio: Option<string>,
    resolution: Option<string>,
    duration: Option<string>)

  /** A `FormData` entry value: a string or a file. */
  datatype FormValue = TextValue(text: string) | FileValue(file: ImageFile)

  datatype FormField = FormField(name: string, value: FormValue)

  /** The body a failed response is read as: `await response.json().catch(() => ({}))`. */
  function BodyOrEmpty(payload: Payload): ApiBody {
    match payload
    case Json(body) => body
    case NotJson(_) => EmptyBody
  }

  /**
    The part every client handler shares, up to the response-specific field check: a fetch
    that rejects, and a non-ok response, throw an Error (the body's `error` when truthy, else
    fallbackPrefix followed by the status); an ok response whose body does not parse throws
    the parse error; an ok JSON response yields its body.
   */
  function Settle(fetched: Fetched, fallbackPrefix: string): (r: Result<ApiBody, string>)
    ensures r.Success? <==> fetched.Responded? && Ok(fetched.response) && fetched.response.payload.Json?
    ensures r.Success? ==> r.value == fetched.response.payload.body
    ensures fetched.Responded? && !Ok(fetched.response) ==> r.Failure? && r.error != ""
    ensures fetched.NetworkFailure? ==> r == Failure(fetched.message)
    ensures fetched.Responded? && Ok(fetched.response) && fetched.response.payload.NotJson? ==>
      r == Failure(fetched.response.payload.message)
  {
    match fetched
    case NetworkFailure(m) => Failure(m)
    case Responded(response) =>
      if !Ok(response) then
        var data := BodyOrEmpty(response.payload);
        Failure(if Truthy(data.error) then data.error.value else fallbackPrefix + NatToString(response.status))
      else
        match response.payload
        case Json(body) => Success(body)
        case NotJson(m) => Failure(m)
  }

  /**
    A non-ok response's message is the body's error text when it has one, and the fallback
    with the status otherwise; in the latter case the status can be read back from it.
   */
  lemma SettleFailedStatus(response: Response, fallbackPrefix: string)
    requires !Ok(response)
    ensures var data := BodyOrEmpty(response.payload);
      && (Truthy(data.error) ==> Settle(Responded(response), fallbackPrefix) == Failure(data.error.value))
      && (!Truthy(data.error) ==> Settle(Responded(response), fallbackPrefix) == Failure(fallbackPrefix + NatToString(response.status)))
  {
  }

  /** Two fallback messages with the same prefix are equal only for the same status. */
  lemma FallbackMessageInjective(fallbackPrefix: string, s1: nat, s2: nat)
    ensures fallbackPrefix + NatToString(s1) == fallbackPrefix + NatToString(s2) ==> s1 == s2
  {
    var m1, m2 := fallbackPrefix + NatToString(s1), fallbackPrefix + NatToString(s2);
    if m1 == m2 {
      assert m1[|fallbackPrefix|..] == NatToString(s1);
      assert m2[|fallbackPrefix|..] == NatToString(s2);
      NatToStringInjective(s1, s2);
    }
  }
}
