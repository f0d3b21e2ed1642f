/** The server-side relay `forward`: checks its configuration, wraps the
    client's request and the skill's instruction into one provider payload,
    makes one POST to the provider and maps the provider's reply to the
    `{status, body}` pair the skill handlers send back to the browser. */
module Relay {
  import opened JsValues

  const ConfigErrorMessage: string := "Server config missing GEMINI_ENDPOINT/GEMINI_API_KEY"
  const UpstreamErrorMessage: string := "Upstream error"

  /** The two environment variables, None when unset. */
  datatype Config = Config(endpoint: Option<string>, apiKey: Option<string>)

  /** Both variables are set to non-empty strings. */
  predicate Configured(config: Config) {
    && config.endpoint.Some? && config.endpoint.value != ""
    && config.apiKey.Some? && config.apiKey.value != ""
  }

  /** The one outbound HTTP request; the payload is serialised with `JSON.stringify`. */
  datatype UpstreamRequest = UpstreamRequest(url: string, httpMethod: string,
                                             headers: map<string, string>, payload: JsValue)

  /** What `fetch` yields: a rejection (network failure) or a response with
      its status and body text. */
  datatype UpstreamReply = Unreachable(message: string) | Replied(status: int, text: string)

  /** `response.ok`: a status in the 2xx range. */
  predicate IsOk(status: int) {
    200 <= status <= 299
  }

  /** Why `forward`'s promise rejects instead of returning a pair. */
  datatype Failure =
    | BodyMissing          // reading a field of a `null` or `undefined` request body
    | NetworkError(message: string)
    | InvalidJson          // `response.json()` on a 2xx reply that is not JSON

  datatype Outcome = Returned(status: int, body: JsValue) | Rejected(failure: Failure)

  /** The requests sent upstream, in order, and what `forward` yields. */
  datatype Exchange = Exchange(calls: seq<UpstreamRequest>, outcome: Outcome)

  function ErrorBody(message: string): JsValue {
    Obj(map["error" := Str(message)])
  }

  /** The provider payload: the task hint as given, plus an `input` object
      with the instruction as prompt and the request's file, URL and extra
      fields copied over. */
  function Payload(reqBody: JsValue, taskHint: JsValue): (p: JsValue)
    requires !Nullish(reqBody)
    ensures p.Obj? && p.props.Keys == {"taskHint", "input"}
    ensures Get(p, "input").Obj?
    ensures Get(p, "input").props.Keys == {"prompt", "fileName", "mimeType", "data", "url", "extra"}
    ensures Get(p, "taskHint") == taskHint
    ensures var input := Get(p, "input");
      && (Truthy(Get(taskHint, "instruction")) ==> Get(input, "prompt") == Get(taskHint, "instruction"))
      && (!Truthy(Get(taskHint, "instruction")) ==> Get(input, "prompt") == Str(""))
      && Get(input, "fileName") == Get(reqBody, "fileName")
      && Get(input, "mimeType") == Get(reqBody, "mimeType")
      && Get(input, "data") == Get(reqBody, "data")
      && Get(input, "url") == Get(reqBody, "url")
      && (Truthy(Get(reqBody, "extra")) ==> Get(input, "extra") == Get(reqBody, "extra"))
      && (!Truthy(Get(reqBody, "extra")) ==> Get(input, "extra") == Obj(map[]))
  {
    Obj(map[
      "taskHint" := taskHint,
      "input" := Obj(map[
        "prompt" := Or(Get(taskHint, "instruction"), Str("")),
        "fileName" := Get(reqBody, "fileName"),
        "mimeType" := Get(reqBody, "mimeType"),
        "data" := Get(reqBody, "data"),
        "url" := Get(reqBody, "url"),
        "extra" := Or(Get(reqBody, "extra"), Obj(map[]))
      ])
    ])
  }

  /** The `{status, body}` pair for a provider reply. */
  function MapReply(reply: UpstreamReply, parse: string -> Option<JsValue>): (o: Outcome)
    ensures reply.Replied? && !IsOk(reply.status) ==>
      o == Returned(reply.status, ErrorBody(if reply.text == "" then UpstreamErrorMessage else reply.text))
    ensures reply.Replied? && IsOk(reply.status) && parse(reply.text).Some? ==>
      o == Returned(200, parse(reply.text).value)
    ensures o.Rejected? <==> reply.Unreachable? || (IsOk(reply.status) && parse(reply.text).None?)
  {
    match reply
    case Unreachable(message) => Rejected(NetworkError(message))
    case Replied(status, text) =>
      if !IsOk(status) then
        Returned(status, ErrorBody(if text == "" then UpstreamErrorMessage else text))
      else match parse(text)
        case None => Rejected(InvalidJson)
        case Some(json) => Returned(200, json)
  }

  /** `forward({reqBody, taskHint})`, with the provider reached through
      `fetch` and `response.json()` given as `parse`. */
  function Forward(config: Config, reqBody: JsValue, taskHint: JsValue,
                   fetch: UpstreamRequest -> UpstreamReply,
                   parse: string -> Option<JsValue>): (x: Exchange)
    ensures |x.calls| <= 1
    ensures x.calls != [] <==> Configured(config) && !Nullish(reqBody)
    ensures !Configured(config) ==> x.outcome == Returned(500, ErrorBody(ConfigErrorMessage))
    ensures Configured(config) && Nullish(reqBody) ==> x.outcome == Rejected(BodyMissing)
    ensures x.calls != [] ==>
      && x.calls[0].url == config.endpoint.value
      && x.calls[0].httpMethod == "POST"
      && x.calls[0].headers == map["Content-Type" := "application/json",
                                   "Authorization" := "Bearer " + config.apiKey.value]
      && x.calls[0].payload == Payload(reqBody, taskHint)
      && x.outcome == MapReply(fetch(x.calls[0]), parse)
  {
    if !Configured(config) then
      Exchange([], Returned(500, ErrorBody(ConfigErrorMessage)))
    else if Nullish(reqBody) then
      Exchange([], Rejected(BodyMissing))
    else
      var request := UpstreamRequest(
        config.endpoint.value, "POST",
        map["Content-Type" := "application/json", "Authorization" := "Bearer " + config.apiKey.value],
        Payload(reqBody, taskHint));
      Exchange([request], MapReply(fetch(request), parse))
  }

  /** Every status `forward` returns is 500 (configuration), 200 (any 2xx
      reply) or the provider's own non-2xx status. */
  lemma ForwardStatus(config: Config, reqBody: JsValue, taskHint: JsValue,
                      fetch: UpstreamRequest -> UpstreamReply, parse: string -> Option<JsValue>)
    ensures var x := Forward(config, reqBody, taskHint, fetch, parse);
      x.outcome.Returned? ==>
        || (!Configured(config) && x.outcome.status == 500)
        || (x.calls != [] && fetch(x.calls[0]).Replied? && IsOk(fetch(x.calls[0]).status) && x.outcome.status == 200)
        || (x.calls != [] && fetch(x.calls[0]).Replied? && !IsOk(fetch(x.calls[0]).status)
            && x.outcome.status == fetch(x.calls[0]).status)
  {
  }

  /** A body returned with a non-2xx status is always an error object with
      a non-empty message. */
  lemma ErrorRepliesCarryMessage(config: Config, reqBody: JsValue, taskHint: JsValue,
                                 fetch: UpstreamRequest -> UpstreamReply, parse: string -> Option<JsValue>)
    ensures var x := Forward(config, reqBody, taskHint, fetch, parse);
      x.outcome.Returned? && x.outcome.status != 200 ==>
        Get(x.outcome.body, "error").Str? && Get(x.outcome.body, "error").s != ""
  {
  }
}
