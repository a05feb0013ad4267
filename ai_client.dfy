/**
 * `callAI` (src/lib/ai.ts): the one `fetch` the client makes to reach a
 * model, routed by provider. The build-time environment (project URL and
 * publishable key) is a parameter; the abort signal is an opaque handle.
 */
module AiClient {
  import opened Base
  import opened Transcript

  const DefaultExpertise: string := "Technology"
  const OpenAiModel: string := "gpt-4o-mini"
  const OpenAiTemperature: real := 0.7

  datatype Env = Env(supabaseUrl: string, publishableKey: string)
  datatype AbortSignal = AbortSignal(handle: nat)

  /** `callAI`'s parameters; an omitted optional one is None. */
  datatype Params = Params(provider: string, messages: seq<ChatTurn>, expertise: Option<string>,
                           memory: Option<seq<string>>, authToken: Option<string>, signal: Option<AbortSignal>)

  /** The JSON bodies of the two routes. */
  datatype Body =
    | OpenAiBody(model: string, temperature: real, messages: seq<ChatTurn>)
    | ChatBody(messages: seq<ChatTurn>, expertise: string, memory: seq<string>)

  /** One POST: its URL, the two auth headers, the JSON body and the signal. */
  datatype Request = Request(url: string, authorization: string, apikey: string, body: Body, signal: Option<AbortSignal>)

  /** `Bearer ${authToken || publishableKey}` */
  function Bearer(authToken: Option<string>, env: Env): string {
    "Bearer " + (if Truthy(authToken) then authToken.value else env.publishableKey)
  }

  /** `callAI` (src/lib/ai.ts:1-35). */
  function CallAI(p: Params, env: Env): (r: Request)
    ensures r.apikey == env.publishableKey && r.signal == p.signal
    ensures r.authorization == Bearer(p.authToken, env)
    ensures p.provider == "openai" <==> r.body.OpenAiBody?
    ensures r.body.messages == p.messages
  {
    if p.provider == "openai" then
      Request(env.supabaseUrl + "/functions/v1/openai", Bearer(p.authToken, env), env.publishableKey,
              OpenAiBody(OpenAiModel, OpenAiTemperature, p.messages), p.signal)
    else
      Request(env.supabaseUrl + "/functions/v1/chat", Bearer(p.authToken, env), env.publishableKey,
              ChatBody(p.messages, p.expertise.GetOr(DefaultExpertise), p.memory.GetOr([])), p.signal)
  }

  /**
   * Routing: `openai` goes to the OpenAI function with the fixed model and
   * temperature and without expertise or memory; every other provider goes
   * to the chat function, with expertise defaulting to Technology and memory
   * to the empty list.
   */
  lemma Routes(p: Params, env: Env)
    ensures p.provider == "openai" ==>
      CallAI(p, env).url == env.supabaseUrl + "/functions/v1/openai" &&
      CallAI(p, env).body == OpenAiBody(OpenAiModel, OpenAiTemperature, p.messages)
    ensures p.provider != "openai" ==>
      CallAI(p, env).url == env.supabaseUrl + "/functions/v1/chat" &&
      CallAI(p, env).body.ChatBody? &&
      (p.expertise.None? ==> CallAI(p, env).body.expertise == DefaultExpertise) &&
      (p.expertise.Some? ==> CallAI(p, env).body.expertise == p.expertise.value) &&
      CallAI(p, env).body.memory == p.memory.GetOr([])
  {
  }

  /** The bearer token is the session token when there is a non-empty one, the publishable key otherwise. */
  lemma BearerFallback(p: Params, env: Env)
    ensures Truthy(p.authToken) ==> CallAI(p, env).authorization == "Bearer " + p.authToken.value
    ensures !Truthy(p.authToken) ==> CallAI(p, env).authorization == "Bearer " + env.publishableKey
  {
  }
}
