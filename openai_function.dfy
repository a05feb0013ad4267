/**
 * The OpenAI edge function (supabase/functions/openai/index.ts): checks its
 * configuration and input, fills in the defaults, makes one non-streaming
 * completion call and maps the answer.
 *
 * The environment variable, the parsed request body and the upstream answer
 * are parameters. `detail` is the upstream body as parsed, or None when it
 * did not parse.
 */
module OpenAiFunction {
  import opened Base
  import opened Transcript

  const DefaultModel: string := "gpt-4o-mini"
  const DefaultTemperature: real := 0.7
  const KeyNotSet: string := "OPENAI_API_KEY not set"
  const MessagesRequired: string := "messages[] required"
  const UpstreamFailed: string := "OpenAI error"

  /**
   * What `await req.json()` gave and destructuring read from it: a failure
   * with its message, or the three fields (None when absent; `messages` is
   * None when it is not an array).
   */
  datatype RequestBody = Unreadable(message: string) |
    Fields(messages: Option<seq<ChatTurn>>, model: Option<string>, temperature: Option<real>)

  /** The body sent to the completions endpoint. */
  datatype UpstreamRequest = UpstreamRequest(model: string, messages: seq<ChatTurn>, temperature: real, stream: bool)

  /** The upstream body as parsed: `choices[0].message.content` when present as a string. */
  datatype Completion = Completion(content: Option<string>)

  /**
   * The upstream answer: `ok`, status, and the JSON body (None when it did
   * not parse); or the message of the error a rejected `fetch` threw.
   */
  datatype UpstreamReply = UpstreamReply(ok: bool, status: int, json: Option<Completion>) | UpstreamRejected(message: string)

  datatype ResponseBody = Empty | Error(error: string) | Failed(error: string, detail: Option<Completion>) | Content(content: string)
  datatype Response = Response(status: int, body: ResponseBody)

  /** The response, and the upstream request if one was made. */
  datatype Outcome = Outcome(response: Response, sent: Option<UpstreamRequest>)

  /** `json?.choices?.[0]?.message?.content ?? ""` */
  function ContentOf(json: Option<Completion>): string {
    if json.Some? && json.value.content.Some? then json.value.content.value else ""
  }

  /** `upstream.status || 502` */
  function FailureStatus(status: int): (s: int)
    ensures s != 0
    ensures status != 0 ==> s == status
  {
    if status == 0 then 502 else status
  }

  /**
   * The handler (supabase/functions/openai/index.ts:10-62). Every exception
   * (an unreadable body, a rejected `fetch`) ends in 500 with its message.
   */
  function Handle(httpMethod: string, apiKey: Option<string>, body: RequestBody, upstream: UpstreamReply): (o: Outcome)
    ensures httpMethod == "OPTIONS" ==> o == Outcome(Response(200, Empty), None)
    ensures httpMethod != "OPTIONS" && !Truthy(apiKey) ==> o == Outcome(Response(500, Error(KeyNotSet)), None)
    ensures o.sent.Some? <==>
      httpMethod != "OPTIONS" && Truthy(apiKey) && body.Fields? && body.messages.Some?
    ensures httpMethod != "OPTIONS" && Truthy(apiKey) && body.Fields? && body.messages.None? ==>
      o == Outcome(Response(400, Error(MessagesRequired)), None)
    ensures o.sent.Some? ==>
      o.sent.value == UpstreamRequest(body.model.GetOr(DefaultModel), body.messages.value,
                                      body.temperature.GetOr(DefaultTemperature), false)
    ensures httpMethod != "OPTIONS" && Truthy(apiKey) && body.Unreadable? ==>
      o == Outcome(Response(500, Error(body.message)), None)
    ensures o.sent.Some? && upstream.UpstreamRejected? ==> o.response == Response(500, Error(upstream.message))
    ensures o.sent.Some? && upstream.UpstreamReply? && !upstream.ok ==>
      o.response == Response(FailureStatus(upstream.status), Failed(UpstreamFailed, upstream.json))
    ensures o.sent.Some? && upstream.UpstreamReply? && upstream.ok ==>
      o.response == Response(200, Content(ContentOf(upstream.json)))
  {
    if httpMethod == "OPTIONS" then Outcome(Response(200, Empty), None)
    else if !Truthy(apiKey) then Outcome(Response(500, Error(KeyNotSet)), None)
    else match body
      case Unreadable(message) => Outcome(Response(500, Error(message)), None)
      case Fields(messages, model, temperature) =>
        if messages.None? then Outcome(Response(400, Error(MessagesRequired)), None)
        else
          var request := UpstreamRequest(model.GetOr(DefaultModel), messages.value, temperature.GetOr(DefaultTemperature), false);
          if upstream.UpstreamRejected? then Outcome(Response(500, Error(upstream.message)), Some(request))
          else if !upstream.ok then Outcome(Response(FailureStatus(upstream.status), Failed(UpstreamFailed, upstream.json)), Some(request))
          else Outcome(Response(200, Content(ContentOf(upstream.json))), Some(request))
  }

  /** The upstream call never streams, and its model and temperature are the given ones or the defaults. */
  lemma RequestDefaults(apiKey: string, messages: seq<ChatTurn>, upstream: UpstreamReply)
    requires apiKey != ""
    ensures var o := Handle("POST", Some(apiKey), Fields(Some(messages), None, None), upstream);
      o.sent == Some(UpstreamRequest(DefaultModel, messages, DefaultTemperature, false))
    ensures forall model: string, t: real ::
      Handle("POST", Some(apiKey), Fields(Some(messages), Some(model), Some(t)), upstream).sent ==
        Some(UpstreamRequest(model, messages, t, false))
  {
  }

  /** A successful answer always carries a string: the completion's text, or "" when there is none. */
  lemma SuccessContent(apiKey: string, messages: seq<ChatTurn>, text: string, status: int)
    requires apiKey != ""
    ensures Handle("POST", Some(apiKey), Fields(Some(messages), None, None), UpstreamReply(true, status, Some(Completion(Some(text))))).response ==
      Response(200, Content(text))
    ensures Handle("POST", Some(apiKey), Fields(Some(messages), None, None), UpstreamReply(true, status, None)).response ==
      Response(200, Content(""))
    ensures Handle("POST", Some(apiKey), Fields(Some(messages), None, None), UpstreamReply(false, 0, None)).response.status == 502
  {
  }
}
