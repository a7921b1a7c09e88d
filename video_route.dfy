/**
  The server route POST /api/generate-video: read `imageUrl` and `prompt` from the JSON
  body, submit an image-to-video job to the Luma Dream Machine model through the fal
  queue, and answer with the video URL or a JSON error.

  The request body parse and `fal.subscribe` are inputs: the body arrives already parsed
  (or as the value its parse threw), and `subscribe` maps a job's input to what the queue
  reports for it.
 */
module VideoRoute {
  import opened Wrappers
  import opened Http

  const JobAspectRatio := "16:9"
  const JsonType := "application/json"

  const MissingFieldsMessage := "Image URL and prompt are required"
  const NoVideoUrlMessage := "No video URL in response"
  const FailedPrefix := "Failed to generate video: "
  const InternalPrefix := "Internal server error: "

  /** `await request.json()` destructured: the body's fields, or the value the parse threw. */
  datatype RequestBody = Parsed(body: VideoRequest) | Unparsable(thrown: Thrown)

  /** The job input sent to the model `fal-ai/luma-dream-machine/image-to-video`. */
  datatype LumaInput = LumaInput(imageUrl: string, prompt: string, aspectRatio: string)

  datatype QueueStatus = InQueue | InProgress | Completed

  /** A queue status update with its log messages, seen by `onQueueUpdate`. */
  datatype QueueUpdate = QueueUpdate(status: QueueStatus, logs: seq<string>)

  /**
    What `fal.subscribe` does for a job: the updates it reports, then either the result's
    `data.video.url` (None when any link of that path is missing) or a rejection.
   */
  datatype SubscribeOutcome =
    | Resolved(updates: seq<QueueUpdate>, videoUrl: Option<string>)
    | Rejected(updates: seq<QueueUpdate>, thrown: Thrown)

  /** The route's `Response`: status, Content-Type header and JSON body. */
  datatype Reply = Reply(status: nat, contentType: string, body: ApiBody)

  /** The reply, and the job input the route subscribed with (None when it never called subscribe). */
  datatype Handled = Handled(reply: Reply, job: Option<LumaInput>)

  function JsonReply(status: nat, body: ApiBody): Reply {
    Reply(status, JsonType, body)
  }

  /** `{ videoUrl: url }` */
  function VideoBody(url: string): ApiBody {
    ApiBody(None, None, None, Some(url))
  }

  /** The route with the queue's answer for its job; what `onQueueUpdate` logs does not enter. */
  function Post(request: RequestBody, subscribe: LumaInput -> SubscribeOutcome): (h: Handled)
    ensures h.reply.contentType == JsonType
    ensures h.reply.status == 200 || h.reply.status == 400 || h.reply.status == 500
    ensures h.job.Some? <==> request.Parsed? && Truthy(request.body.imageUrl) && Truthy(request.body.prompt)
    ensures h.job.Some? ==> h.job.value == LumaInput(request.body.imageUrl.value, request.body.prompt.value, JobAspectRatio)
    ensures h.reply.status == 200 <==> h.job.Some? && subscribe(h.job.value).Resolved? && Truthy(subscribe(h.job.value).videoUrl)
    ensures h.reply.status == 200 ==> h.reply.body == VideoBody(subscribe(h.job.value).videoUrl.value)
    ensures h.reply.status != 200 ==> h.reply.body.error.Some? && h.reply.body.videoUrl.None?
  {
    match request
    case Unparsable(thrown) => Handled(JsonReply(500, ErrorBody(InternalPrefix + ThrownMessage(thrown))), None)
    case Parsed(body) =>
      if !Truthy(body.imageUrl) || !Truthy(body.prompt) then
        Handled(JsonReply(400, ErrorBody(MissingFieldsMessage)), None)
      else
        var job := LumaInput(body.imageUrl.value, body.prompt.value, JobAspectRatio);
        match subscribe(job)
        case Rejected(_, thrown) => Handled(JsonReply(500, ErrorBody(FailedPrefix + ThrownMessage(thrown))), Some(job))
        case Resolved(_, url) =>
          if Truthy(url) then Handled(JsonReply(200, VideoBody(url.value)), Some(job))
          else Handled(JsonReply(500, ErrorBody(FailedPrefix + NoVideoUrlMessage)), Some(job))
  }

  /** A falsy imageUrl or prompt is answered with 400 without subscribing; nothing else is. */
  lemma MissingFields(body: VideoRequest, subscribe: LumaInput -> SubscribeOutcome)
    ensures var h := Post(Parsed(body), subscribe);
      (h.reply.status == 400 <==> !Truthy(body.imageUrl) || !Truthy(body.prompt))
      && (h.reply.status == 400 ==> h.reply.body == ErrorBody(MissingFieldsMessage) && h.job.None?)
  {
  }

  /**
    Only imageUrl and prompt are read: two bodies that agree on them get the same answer,
    whatever aspect ratio, resolution or duration they ask for.
   */
  lemma OtherFieldsIgnored(b1: VideoRequest, b2: VideoRequest, subscribe: LumaInput -> SubscribeOutcome)
    requires b1.imageUrl == b2.imageUrl && b1.prompt == b2.prompt
    ensures Post(Parsed(b1), subscribe) == Post(Parsed(b2), subscribe)
  {
  }

  /** The job always asks for 16:9. */
  lemma JobAspectAlways(request: RequestBody, subscribe: LumaInput -> SubscribeOutcome)
    ensures var h := Post(request, subscribe);
      h.job.Some? ==> h.job.value.aspectRatio == "16:9"
  {
  }

  /** The outcome of a subscription without its queue updates. */
  function Settled(outcome: SubscribeOutcome): SubscribeOutcome {
    match outcome
    case Resolved(_, url) => Resolved([], url)
    case Rejected(_, thrown) => Rejected([], thrown)
  }

  /** Queue updates, in progress or not, never change the reply. */
  lemma QueueUpdatesIgnored(request: RequestBody, s1: LumaInput -> SubscribeOutcome, s2: LumaInput -> SubscribeOutcome)
    requires forall job :: Settled(s1(job)) == Settled(s2(job))
    ensures Post(request, s1) == Post(request, s2)
  {
    if Post(request, s1).job.Some? {
      var job := Post(request, s1).job.value;
      assert Settled(s1(job)) == Settled(s2(job));
    }
  }

  /**
    For a job that was submitted, the three possible answers: 200 with the video URL, 500
    for a result without one, and 500 with the rejection's message (or "Unknown error").
   */
  lemma SubmittedOutcomes(body: VideoRequest, subscribe: LumaInput -> SubscribeOutcome)
    requires Truthy(body.imageUrl) && Truthy(body.prompt)
    ensures var job := LumaInput(body.imageUrl.value, body.prompt.value, JobAspectRatio);
      var h := Post(Parsed(body), subscribe);
      match subscribe(job)
      case Resolved(_, url) =>
        && (Truthy(url) ==> h.reply == Reply(200, JsonType, VideoBody(url.value)))
        && (!Truthy(url) ==> h.reply == Reply(500, JsonType, ErrorBody(FailedPrefix + NoVideoUrlMessage)))
      case Rejected(_, ErrorValue(m)) => h.reply == Reply(500, JsonType, ErrorBody(FailedPrefix + m))
      case Rejected(_, OtherValue) => h.reply == Reply(500, JsonType, ErrorBody(FailedPrefix + "Unknown error"))
  {
  }

  /** A body whose parse throws is answered with 500 and the internal-error prefix, without subscribing. */
  lemma UnparsableBody(thrown: Thrown, subscribe: LumaInput -> SubscribeOutcome)
    ensures var h := Post(Unparsable(thrown), subscribe);
      && h.job.None?
      && h.reply == Reply(500, JsonType, ErrorBody(InternalPrefix + ThrownMessage(thrown)))
  {
  }

  /**
    The two kinds of 500 are told apart by their prefix: a reply never carries both, so a
    client can see whether the job ran.
   */
  lemma ServerErrorsDistinct(request: RequestBody, subscribe: LumaInput -> SubscribeOutcome)
    ensures var h := Post(request, subscribe);
      h.reply.status == 500 ==>
        var e := h.reply.body.error.value;
        (h.job.Some? <==> |FailedPrefix| <= |e| && e[..|FailedPrefix|] == FailedPrefix)
        && (h.job.None? <==> |InternalPrefix| <= |e| && e[..|InternalPrefix|] == InternalPrefix)
  {
    var h := Post(request, subscribe);
    if h.reply.status == 500 {
      var e := h.reply.body.error.value;
      if h.job.Some? {
        assert e[..|FailedPrefix|] == FailedPrefix;
        assert e[..|InternalPrefix|] != InternalPrefix by {
          assert e[0] == 'F' && InternalPrefix[0] == 'I';
        }
      } else {
        assert e[..|InternalPrefix|] == InternalPrefix;
        assert e[0] == 'I' && FailedPrefix[0] == 'F';
        if |FailedPrefix| <= |e| {
          assert e[..|FailedPrefix|][0] == 'I';
        }
      }
    }
  }
}
