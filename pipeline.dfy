/**
  The video stage end to end: the request KlingKolorsGenerator sends for a generated
  image, answered by POST /api/generate-video, read back by the component.
 */
module Pipeline {
  import opened Wrappers
  import opened Http
  import opened VideoRoute
  import opened KlingKolors

  /** The route's reply as the client's fetch sees it. */
  function Delivered(reply: Reply): Fetched {
    Responded(Response(reply.status, Json(reply.body)))
  }

  /** A non-ok reply with a non-empty error reaches the component as that error. */
  lemma ErrorReplyRead(reply: Reply, e: string)
    requires reply.status == 500 && reply.body == ErrorBody(e) && e != ""
    ensures MotionOutcome(Delivered(reply)) == Failure(e)
  {
    assert Truthy(BodyOrEmpty(Json(reply.body)).error);
  }

  /** A 200 reply with a video URL reaches the component as that URL. */
  lemma VideoReplyRead(reply: Reply, url: string)
    requires reply.status == 200 && reply.body == VideoBody(url) && url != ""
    ensures MotionOutcome(Delivered(reply)) == Success(url)
  {
  }

  /**
    A motion request for a generated image always passes the route's check and starts a
    16:9 job with the fixed prompt, although the request asks for 9:16. The component then
    shows the video URL, or an error in which the route's "Failed to generate video: "
    follows the component's own prefix, which is the same text.
   */
  lemma MotionThroughRoute(imageUrl: string, subscribe: LumaInput -> SubscribeOutcome)
    requires imageUrl != ""
    ensures var request := MotionRequest(imageUrl);
      var h := Post(Parsed(request), subscribe);
      var job := LumaInput(imageUrl, MotionPrompt, "16:9");
      var outcome := MotionOutcome(Delivered(h.reply));
      && h.reply.status != 400
      && h.job == Some(job)
      && request.aspectRatio == Some("9:16")
      && MotionFailedPrefix == FailedPrefix
      && match subscribe(job)
         case Resolved(_, url) =>
           (Truthy(url) ==> outcome == Success(url.value))
           && (!Truthy(url) ==> outcome == Failure(FailedPrefix + VideoRoute.NoVideoUrlMessage))
         case Rejected(_, thrown) =>
           outcome == Failure(FailedPrefix + ThrownMessage(thrown))
  {
    var request := MotionRequest(imageUrl);
    var h := Post(Parsed(request), subscribe);
    var job := LumaInput(imageUrl, MotionPrompt, "16:9");
    assert MotionPrompt != "";
    assert h.job == Some(job);
    match subscribe(job)
    case Resolved(_, url) =>
      if Truthy(url) {
        VideoReplyRead(h.reply, url.value);
      } else {
        ErrorReplyRead(h.reply, FailedPrefix + VideoRoute.NoVideoUrlMessage);
      }
    case Rejected(_, thrown) =>
      ErrorReplyRead(h.reply, FailedPrefix + ThrownMessage(thrown));
  }
}
