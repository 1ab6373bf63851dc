/**
 * The `/api/proxy` handler (api/proxy.js): body parsing and validation, the
 * `max_tokens` clamp, and the mapping of the upstream result, including the
 * marker-triggered second call, to `{reply, usage}` or an error.
 */
module Proxy {
  import opened Js
  import opened Upstream

  const MaxTokensCap := 800

  /**
   * The properties a client may send. Only `message` and `max_tokens` are
   * read; `apiKey`, `apiUrl` and `model` are what the widget adds in its
   * development mode.
   */
  datatype ProxyBody = ProxyBody(message: Field, maxTokens: Num, apiKey: Field, apiUrl: Field, model: Field)

  /** A JSON value that is an object with those properties, or one without any (null, a number, ...). */
  datatype JsonBody = NoFields | Fields(fields: ProxyBody)

  /** `req.body`: a string still to be parsed (None: `JSON.parse` throws), or an already parsed value. */
  datatype RawBody = Text(parsed: Option<JsonBody>) | Parsed(value: JsonBody)

  /** `body || {}` destructured: every property of a value without fields is undefined. */
  function FieldsOf(j: JsonBody): (b: ProxyBody)
    ensures j.NoFields? ==> b.message == Absent && b.maxTokens == Undefined
    ensures j.Fields? ==> b == j.fields
  {
    match j
    case NoFields => ProxyBody(Absent, Undefined, Absent, Absent, Absent)
    case Fields(b) => b
  }

  /** The body as the handler reads it, or None when a string body is not JSON. */
  function ParseBody(raw: RawBody): (body: Option<ProxyBody>) {
    match raw
    case Text(None) => None
    case Text(Some(j)) => Some(FieldsOf(j))
    case Parsed(j) => Some(FieldsOf(j))
  }

  /** `message` passes `!message || typeof message !== 'string'` exactly when it is a non-empty string. */
  predicate ValidMessage(f: Field) {
    f.Str? && f.s != ""
  }

  /**
   * What `handler` decides before any upstream call: OPTIONS, the method,
   * the body's JSON, `message`, and only then the API key.
   */
  function ValidateProxy(verb: string, raw: RawBody, config: Config): (d: Decision)
    ensures d.Forward? <==>
      && verb == "POST" && ParseBody(raw).Some? && ValidMessage(ParseBody(raw).value.message)
      && config.apiKey != ""
    ensures d.Forward? ==>
      && d.request.userContent == ParseBody(raw).value.message.s
      && d.request.url == config.apiUrl && d.request.apiKey == config.apiKey && d.request.model == config.model
      && d.request.maxTokens == ClampMaxTokens(MaxTokensCap, ParseBody(raw).value.maxTokens, config.maxTokens)
      && d.request.maxTokens <= MaxTokensCap
    ensures d.Respond? ==> d.reply.status in {204, 400, 405, 500}
    ensures verb == "OPTIONS" ==> d == Respond(Reply(204, Empty))
    ensures verb != "OPTIONS" && verb != "POST" ==> d == Respond(Reply(405, ErrorText("Method not allowed")))
    ensures verb == "POST" && ParseBody(raw).None? ==> d == Respond(Reply(400, ErrorText("Invalid JSON body")))
    ensures verb == "POST" && ParseBody(raw).Some? && !ValidMessage(ParseBody(raw).value.message) ==>
      d == Respond(Reply(400, ErrorText("Message is required")))
    ensures verb == "POST" && ParseBody(raw).Some? && ValidMessage(ParseBody(raw).value.message)
            && config.apiKey == "" ==>
      d == Respond(Reply(500, ErrorText("OPENAI_API_KEY is not configured")))
    ensures d.Respond? && d.reply.status == 500 ==>
      verb == "POST" && ParseBody(raw).Some? && ValidMessage(ParseBody(raw).value.message) && config.apiKey == ""
  {
    if verb == "OPTIONS" then Respond(Reply(204, Empty))
    else if verb != "POST" then Respond(Reply(405, ErrorText("Method not allowed")))
    else match ParseBody(raw)
      case None => Respond(Reply(400, ErrorText("Invalid JSON body")))
      case Some(body) =>
        if !ValidMessage(body.message) then Respond(Reply(400, ErrorText("Message is required")))
        else if config.apiKey == "" then Respond(Reply(500, ErrorText("OPENAI_API_KEY is not configured")))
        else Forward(UpstreamRequest(config.apiUrl, config.apiKey, config.model, body.message.s,
                                     ClampMaxTokens(MaxTokensCap, body.maxTokens, config.maxTokens)))
  }

  /** Client-supplied `apiKey`, `apiUrl` and `model` never change what the handler decides or sends. */
  lemma ClientOverridesIgnored(verb: string, body: ProxyBody, apiKey: Field, apiUrl: Field, model: Field, config: Config)
    ensures ValidateProxy(verb, Parsed(Fields(body)), config)
         == ValidateProxy(verb, Parsed(Fields(body.(apiKey := apiKey, apiUrl := apiUrl, model := model))), config)
  {
  }

  /** A string body and the object it parses to are handled alike. */
  lemma TextBodyParsed(verb: string, j: JsonBody, config: Config)
    ensures ValidateProxy(verb, Text(Some(j)), config) == ValidateProxy(verb, Parsed(j), config)
  {
  }

  /** The 200 reply: `choices[0].message.content ?? ''` and `usage ?? null`, or a 500 if the body is not JSON. */
  function Answer(r: Response): (reply: Reply)
    ensures reply.status == 200 <==> r.json.Some?
    ensures r.json.Some? ==> reply.body == ProxyAnswer(
      if r.json.value.content.Some? then r.json.value.content.value else "", r.json.value.usage)
    ensures r.json.None? ==> reply == Reply(500, UpstreamError(InvalidJson))
  {
    match r.json
    case None => Reply(500, UpstreamError(InvalidJson))
    case Some(c) => Reply(200, ProxyAnswer(match c.content case Some(s) => s case None => "", c.usage))
  }

  /**
   * The reply the upstream phase of api/proxy.js writes, from the first
   * wrapper result and (used only after a marker error) the second one.
   */
  function ProxyReply(first: Fetched, second: Fetched): (reply: Reply)
    ensures first.Thrown? ==> reply == Reply(500, UpstreamError(first.error))
    ensures first.Returned? && Ok(first.response) ==> reply == Answer(first.response)
    ensures first.Returned? && !Ok(first.response) && !IsMarkerError(first.response) ==>
      reply == Reply(first.response.status, ErrorText(first.response.text))
    ensures NeedsMarkerRetry(first) && second.Returned? && Ok(second.response) ==> reply == Answer(second.response)
    ensures NeedsMarkerRetry(first) && second.Returned? && !Ok(second.response) ==>
      reply == Reply(second.response.status, ErrorText(second.response.text))
    ensures NeedsMarkerRetry(first) && second.Thrown? ==> reply == Reply(500, UpstreamError(second.error))
    ensures reply.body.ProxyAnswer? <==> reply.status == 200
  {
    match first
    case Thrown(e) => Reply(500, UpstreamError(e))
    case Returned(r1) =>
      if Ok(r1) then Answer(r1)
      else if !IsMarkerError(r1) then Reply(r1.status, ErrorText(r1.text))
      else
        match second
        case Thrown(e) => Reply(500, UpstreamError(e))
        case Returned(r2) => if Ok(r2) then Answer(r2) else Reply(r2.status, ErrorText(r2.text))
  }

  /**
   * The upstream phase of api/proxy.js (the `try` block after the request is
   * built), with `response` and `errorText` reassigned after a marker retry.
   */
  method ProxyUpstream(retry: Num, net: nat -> Outcome) returns (reply: Reply, fetches: nat, delays: seq<int>)
    ensures UpstreamPhase(retry, net, fetches, delays)
    ensures reply == ProxyReply(Retry(retry, net, 0).result, Retry(retry, net, Retry(retry, net, 0).fetches).result)
  {
    var result, n, d := FetchWithTimeoutAndRetry(retry, net, 0);
    fetches, delays := n, d;
    if result.Thrown? {
      reply := Reply(500, UpstreamError(result.error));
      return;
    }
    var response := result.response;
    if !Ok(response) {
      var errorText := response.text;
      if response.status == 400 && Includes(errorText, Marker) {
        delays := delays + [MarkerDelayMs];
        var again, n2, d2 := FetchWithTimeoutAndRetry(retry, net, fetches);
        fetches, delays := fetches + n2, delays + d2;
        if again.Thrown? {
          reply := Reply(500, UpstreamError(again.error));
          return;
        }
        response := again.response;
        if !Ok(response) {
          errorText := response.text;
        }
      }
      if !Ok(response) {
        reply := Reply(response.status, ErrorText(errorText));
        return;
      }
    }
    reply := Answer(response);
  }

  /**
   * `handler` of api/proxy.js: every early answer is given with no upstream
   * call; otherwise the request is sent and the reply is the upstream phase's.
   * After a marker error the second wrapper call sends the same request
   * again, so `sent` records it once.
   */
  method HandleProxy(verb: string, raw: RawBody, config: Config, net: nat -> Outcome)
    returns (reply: Reply, sent: Option<UpstreamRequest>, fetches: nat, delays: seq<int>)
    ensures ValidateProxy(verb, raw, config).Respond? ==>
      reply == ValidateProxy(verb, raw, config).reply && sent == None && fetches == 0 && delays == []
    ensures ValidateProxy(verb, raw, config).Forward? ==>
      && sent == Some(ValidateProxy(verb, raw, config).request)
      && UpstreamPhase(config.retryCount, net, fetches, delays)
      && reply == ProxyReply(Retry(config.retryCount, net, 0).result,
                            Retry(config.retryCount, net, Retry(config.retryCount, net, 0).fetches).result)
  {
    var decision := ValidateProxy(verb, raw, config);
    if decision.Respond? {
      return decision.reply, None, 0, [];
    }
    sent := Some(decision.request);
    reply, fetches, delays := ProxyUpstream(config.retryCount, net);
  }

  /**
   * The documented example: `{message: "李白是谁"}` and an upstream that
   * answers 200 with content "诗人" and `usage {total_tokens: 10}` give a 200
   * with that reply and usage after one fetch and no wait, whatever the
   * retry budget (as long as the loop runs).
   */
  lemma PoetExample(config: Config, net: nat -> Outcome)
    requires config.apiKey != "" && AttemptBudget(config.retryCount) > 0
    requires net(0) == Resp(Response(200, "", Some(Completion(Some("诗人"), Some(Usage(map["total_tokens" := 10]))))))
    ensures var body := ProxyBody(Str("李白是谁"), Undefined, Absent, Absent, Absent);
      && ValidateProxy("POST", Parsed(Fields(body)), config).Forward?
      && Retry(config.retryCount, net, 0) == Trace(Returned(net(0).response), 1, [])
      && ProxyReply(Retry(config.retryCount, net, 0).result, Retry(config.retryCount, net, 1).result)
         == Reply(200, ProxyAnswer("诗人", Some(Usage(map["total_tokens" := 10]))))
  {
  }
}
