/** POST `/chat/message`: builds the request for the AI service and turns the
    outcome of the call into the response. The HTTP client is not modelled;
    what it reports is the `Upstream` parameter. */
module AiRoutes {
  import opened Values

  /** What the HTTP client reports for the call. */
  datatype Upstream =
    | Replied(data: Json)                        // a 2xx response and its data
    | ErrorResponse(status: int, data: Json)     // `error.response`: the service answered with another status
    | NoResponse                                 // `error.request` only: nothing came back
    | SetupError(message: string)                // the request could not be set up

  /** The one call the handler makes. */
  datatype Outbound = Outbound(url: string, body: Body)

  /** The call made (if any) and the response sent. */
  datatype ProxyResult = ProxyResult(sent: Option<Outbound>, response: Response)

  const SocraticPath := "/ai/socratic-question"
  const UrlMissing := "AI service URL not configured."
  const UpstreamFailed := "Error from AI service"
  const Unreachable := "AI service is unreachable."
  const SetupFailed := "Error setting up AI request."

  /** The fields copied from the request body as they are. */
  const CopiedKeys: set<string> := {"message", "subject", "gradeLevel", "tutoringStyle", "conversationHistory"}

  /** The outbound body. A field the client left out is `undefined` in the object
      literal and is dropped when the body is serialised, so it is absent here too.
      `emotion` falls back to `"neutral"` when falsy; `provider` is the configured
      provider name, or `"google"`. */
  function SocraticRequest(body: Body, providerEnv: Option<string>): (out: Body)
    ensures forall k :: k in CopiedKeys ==> Prop(out, k) == Prop(body, k)
    ensures out.Keys == (body.Keys * CopiedKeys) + {"emotion", "provider"}
    ensures Truthy(Prop(body, "emotion")) ==> out["emotion"] == body["emotion"]
    ensures !Truthy(Prop(body, "emotion")) ==> out["emotion"] == JStr("neutral")
    ensures providerEnv.Some? && providerEnv.value != "" ==> out["provider"] == JStr(providerEnv.value)
    ensures providerEnv.None? || providerEnv.value == "" ==> out["provider"] == JStr("google")
  {
    var copied := map k | k in body && k in CopiedKeys :: body[k];
    var emotion := if Truthy(Prop(body, "emotion")) then body["emotion"] else JStr("neutral");
    copied["emotion" := emotion]["provider" := JStr(EnvOr(providerEnv, "google"))]
  }

  /** The response for each outcome of the call. */
  function Classify(outcome: Upstream): (resp: Response)
    ensures outcome.Replied? ==> resp == Response(200, outcome.data)
    ensures outcome.ErrorResponse? ==>
      resp == Response(outcome.status, JObj(map["message" := JStr(UpstreamFailed), "details" := outcome.data]))
    ensures outcome.NoResponse? ==> resp == Response(503, MessageBody(Unreachable))
    ensures outcome.SetupError? ==> resp == Response(500, MessageBody(SetupFailed))
  {
    match outcome
    case Replied(data) => Response(200, data)
    case ErrorResponse(status, data) =>
      Response(status, JObj(map["message" := JStr(UpstreamFailed), "details" := data]))
    case NoResponse => Response(503, MessageBody(Unreachable))
    case SetupError(_) => Response(500, MessageBody(SetupFailed))
  }

  /** The handler. Without a service URL nothing is sent and the answer is 500;
      otherwise exactly one request goes to the Socratic-question endpoint. */
  function ChatMessage(body: Body, serviceUrl: Option<string>, providerEnv: Option<string>, outcome: Upstream): (r: ProxyResult)
    ensures serviceUrl.None? || serviceUrl.value == "" ==>
      r == ProxyResult(None, Response(500, MessageBody(UrlMissing)))
    ensures serviceUrl.Some? && serviceUrl.value != "" ==>
      && r.sent == Some(Outbound(serviceUrl.value + SocraticPath, SocraticRequest(body, providerEnv)))
      && r.response == Classify(outcome)
  {
    if serviceUrl.None? || serviceUrl.value == "" then
      ProxyResult(None, Response(500, MessageBody(UrlMissing)))
    else
      ProxyResult(Some(Outbound(serviceUrl.value + SocraticPath, SocraticRequest(body, providerEnv))),
                  Classify(outcome))
  }

  /** Only four statuses leave the handler once the call is made: 200, the
      upstream's own error status, 503 and 500; and the upstream's data always
      reaches the client unchanged. */
  lemma ClassifyRelaysUpstream(outcome: Upstream)
    ensures Classify(outcome).status in {200, 503, 500} || (outcome.ErrorResponse? && Classify(outcome).status == outcome.status)
    ensures outcome.Replied? ==> Classify(outcome).body == outcome.data
    ensures outcome.ErrorResponse? ==> Classify(outcome).body.fields["details"] == outcome.data
  {
  }

  /** An upstream 429 with `{error: "rate limited"}` reaches the client as a 429
      carrying that body. */
  lemma RateLimitRelayed(body: Body, url: string, providerEnv: Option<string>)
    requires url != ""
    ensures var data := JObj(map["error" := JStr("rate limited")]);
            var r := ChatMessage(body, Some(url), providerEnv, ErrorResponse(429, data));
            r.response.status == 429 && r.response.body.fields["details"] == data
  {
  }
}
