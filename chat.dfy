/**
 * The `/api/chat` handler (api/chat.js): request validation, the backwards
 * search for the last user message, the `max_tokens` clamp, and the mapping
 * of the upstream result, including the marker-triggered second call, to the
 * reply written to the client.
 */
module Chat {
  import opened Js
  import opened Upstream

  const MaxTokensCap := 300

  /** An element of `messages`: a falsy value, or something with `role` and `content`. */
  datatype Entry = Falsy | Message(role: Field, content: Field)

  /** `messages` from the body: missing or not an array, or an array. */
  datatype Messages = NotArray | Array(entries: seq<Entry>)

  /** `req.body`: undefined, or an object from which `messages` and `max_tokens` are read. */
  datatype RequestBody = NoBody | Body(messages: Messages, maxTokens: Num)

  /** `messages[i] && messages[i].role === 'user' && typeof messages[i].content === 'string'`. */
  predicate IsUserText(e: Entry) {
    e.Message? && e.role == Str("user") && e.content.Str?
  }

  /** The content of the highest-index user message with string content, or "" if none. */
  function LastUserText(entries: seq<Entry>): (content: string)
  {
    if |entries| == 0 then ""
    else if IsUserText(entries[|entries| - 1]) then entries[|entries| - 1].content.s
    else LastUserText(entries[..|entries| - 1])
  }

  /**
   * `LastUserText` picks the user message with the highest index: messages
   * after it, of any other kind, do not matter, and user messages before it
   * are never consulted, even when it is empty and they are not.
   */
  lemma {:induction false} LastUserTextIsLatest(entries: seq<Entry>, i: int)
    requires 0 <= i < |entries| && IsUserText(entries[i])
    requires forall j :: i < j < |entries| ==> !IsUserText(entries[j])
    ensures LastUserText(entries) == entries[i].content.s
    decreases |entries|
  {
    if i < |entries| - 1 {
      var front := entries[..|entries| - 1];
      assert front[i] == entries[i];
      LastUserTextIsLatest(front, i);
    }
  }

  /** With no user message of string content, `LastUserText` is "". */
  lemma {:induction false} LastUserTextNone(entries: seq<Entry>)
    requires forall j :: 0 <= j < |entries| ==> !IsUserText(entries[j])
    ensures LastUserText(entries) == ""
    decreases |entries|
  {
    if |entries| > 0 {
      LastUserTextNone(entries[..|entries| - 1]);
    }
  }

  /** The `for (let i = messages.length - 1; i >= 0; i -= 1)` search of api/chat.js. */
  method FindLastUserContent(messages: seq<Entry>) returns (lastUserContent: string)
    ensures lastUserContent == LastUserText(messages)
  {
    lastUserContent := "";
    var i := |messages| - 1;
    assert messages[..i + 1] == messages;
    while i >= 0
      invariant -1 <= i < |messages|
      invariant LastUserText(messages) == LastUserText(messages[..i + 1])
    {
      if IsUserText(messages[i]) {
        lastUserContent := messages[i].content.s;
        break;
      }
      assert messages[..i + 1][..i] == messages[..i];
      i := i - 1;
    }
  }

  /**
   * What `handler` decides before any upstream call: OPTIONS, then the
   * method, then `messages`, then the API key, then the user message.
   */
  function ValidateChat(verb: string, body: RequestBody, config: Config): (d: Decision)
    ensures d.Forward? <==>
      && verb == "POST" && body.Body? && body.messages.Array?
      && config.apiKey != "" && LastUserText(body.messages.entries) != ""
    ensures d.Forward? ==>
      && d.request.userContent == LastUserText(body.messages.entries)
      && d.request.url == config.apiUrl && d.request.apiKey == config.apiKey && d.request.model == config.model
      && d.request.maxTokens == ClampMaxTokens(MaxTokensCap, body.maxTokens, config.maxTokens)
      && d.request.maxTokens <= MaxTokensCap
    ensures d.Respond? ==> d.reply.status in {200, 400, 405, 500}
    ensures verb == "OPTIONS" ==> d == Respond(Reply(200, Empty))
    ensures verb != "OPTIONS" && verb != "POST" ==> d == Respond(Reply(405, ErrorText("Method not allowed")))
    ensures verb == "POST" && body.NoBody? ==> d == Respond(Reply(500, ErrorMessage(NoRequestBody)))
    ensures verb == "POST" && body.Body? && body.messages.NotArray? ==>
      d == Respond(Reply(400, ErrorText("Messages array is required")))
    ensures verb == "POST" && body.Body? && body.messages.Array? && config.apiKey == "" ==>
      d == Respond(Reply(500, ErrorText("API key not configured")))
    ensures verb == "POST" && body.Body? && body.messages.Array? && config.apiKey != ""
            && LastUserText(body.messages.entries) == "" ==>
      d == Respond(Reply(400, ErrorText("No user message provided")))
    ensures d.Respond? && d.reply == Reply(500, ErrorText("API key not configured")) ==>
      verb == "POST" && body.Body? && body.messages.Array? && config.apiKey == ""
    ensures d.Respond? && d.reply == Reply(400, ErrorText("No user message provided")) ==>
      verb == "POST" && config.apiKey != "" && body.Body? && body.messages.Array?
  {
    if verb == "OPTIONS" then Respond(Reply(200, Empty))
    else if verb != "POST" then Respond(Reply(405, ErrorText("Method not allowed")))
    else match body
      case NoBody => Respond(Reply(500, ErrorMessage(NoRequestBody)))
      case Body(messages, maxTokens) =>
        if !messages.Array? then Respond(Reply(400, ErrorText("Messages array is required")))
        else if config.apiKey == "" then Respond(Reply(500, ErrorText("API key not configured")))
        else
          var content := LastUserText(messages.entries);
          if content == "" then Respond(Reply(400, ErrorText("No user message provided")))
          else Forward(UpstreamRequest(config.apiUrl, config.apiKey, config.model, content,
                                       ClampMaxTokens(MaxTokensCap, maxTokens, config.maxTokens)))
  }

  /**
   * The reply `handleNormalResponse` writes, from the first wrapper result
   * and (used only after a marker error) the second one.
   */
  function ChatReply(first: Fetched, second: Fetched): (reply: Reply)
    ensures reply.body.Forwarded? <==> first.Returned? && Ok(first.response) && first.response.json.Some?
    ensures reply.body.Forwarded? ==> reply == Reply(200, Forwarded(first.response.json.value))
    ensures first.Returned? && !Ok(first.response) && !IsMarkerError(first.response) ==>
      reply == Reply(first.response.status, ErrorText(first.response.text))
    ensures first.Returned? && Ok(first.response) && first.response.json.None? ==>
      reply == Reply(500, ErrorMessage(InvalidJson))
    ensures NeedsMarkerRetry(first) && second.Returned? ==>
      reply == Reply(second.response.status,
                     ErrorText(if Ok(second.response) then first.response.text else second.response.text))
    ensures NeedsMarkerRetry(first) && second.Thrown? ==> reply == Reply(500, ErrorMessage(second.error))
    ensures first.Thrown? ==> reply == Reply(500, ErrorMessage(first.error))
    ensures reply.body.ErrorMessage? ==> reply.status == 500
  {
    match first
    case Thrown(e) => Reply(500, ErrorMessage(e))
    case Returned(r1) =>
      if Ok(r1) then
        if r1.json.Some? then Reply(200, Forwarded(r1.json.value)) else Reply(500, ErrorMessage(InvalidJson))
      else if !IsMarkerError(r1) then Reply(r1.status, ErrorText(r1.text))
      else
        match second
        case Thrown(e) => Reply(500, ErrorMessage(e))
        case Returned(r2) => Reply(r2.status, ErrorText(if Ok(r2) then r1.text else r2.text))
  }

  /**
   * When the marker retry succeeds, the client still gets the error branch:
   * the second response's (success) status with the first response's text.
   */
  lemma MarkerRecoveryStillReportsError(r1: Response, r2: Response)
    requires IsMarkerError(r1) && Ok(r2)
    ensures ChatReply(Returned(r1), Returned(r2)) == Reply(r2.status, ErrorText(r1.text))
    ensures !ChatReply(Returned(r1), Returned(r2)).body.Forwarded?
  {
  }

  /** `handleNormalResponse`: the upstream phase of api/chat.js. */
  method HandleNormalResponse(retry: Num, net: nat -> Outcome) returns (reply: Reply, fetches: nat, delays: seq<int>)
    ensures UpstreamPhase(retry, net, fetches, delays)
    ensures reply == ChatReply(Retry(retry, net, 0).result, Retry(retry, net, Retry(retry, net, 0).fetches).result)
  {
    var result, n, d := FetchWithTimeoutAndRetry(retry, net, 0);
    fetches, delays := n, d;
    if result.Thrown? {
      reply := Reply(500, ErrorMessage(result.error));
      return;
    }
    var response := result.response;
    if !Ok(response) {
      var errorText := response.text;
      if response.status == 400 && Includes(errorText, Marker) {
        delays := delays + [MarkerDelayMs];
        var again, n2, d2 := FetchWithTimeoutAndRetry(retry, net, fetches);
        fetches, delays := fetches + n2, delays + d2;
        if again.Thrown? {
          reply := Reply(500, ErrorMessage(again.error));
          return;
        }
        response := again.response;
        if !Ok(response) {
          errorText := response.text;
        }
      }
      reply := Reply(response.status, ErrorText(errorText));
      return;
    }
    if response.json.None? {
      reply := Reply(500, ErrorMessage(InvalidJson));
      return;
    }
    reply := Reply(200, Forwarded(response.json.value));
  }

  /**
   * `handler` of api/chat.js: every early answer is given with no upstream
   * call; otherwise the built request is sent and the reply is the upstream
   * phase's. After a marker error the second wrapper call sends the same
   * request again, so `sent` records it once.
   */
  method HandleChat(verb: string, body: RequestBody, config: Config, net: nat -> Outcome)
    returns (reply: Reply, sent: Option<UpstreamRequest>, fetches: nat, delays: seq<int>)
    ensures ValidateChat(verb, body, config).Respond? ==>
      reply == ValidateChat(verb, body, config).reply && sent == None && fetches == 0 && delays == []
    ensures ValidateChat(verb, body, config).Forward? ==>
      && sent == Some(ValidateChat(verb, body, config).request)
      && UpstreamPhase(config.retryCount, net, fetches, delays)
      && reply == ChatReply(Retry(config.retryCount, net, 0).result,
                           Retry(config.retryCount, net, Retry(config.retryCount, net, 0).fetches).result)
  {
    sent, fetches, delays := None, 0, [];
    if verb == "OPTIONS" {
      reply := Reply(200, Empty);
      return;
    }
    if verb != "POST" {
      reply := Reply(405, ErrorText("Method not allowed"));
      return;
    }
    if body.NoBody? {
      reply := Reply(500, ErrorMessage(NoRequestBody));
      return;
    }
    if !body.messages.Array? {
      reply := Reply(400, ErrorText("Messages array is required"));
      return;
    }
    if config.apiKey == "" {
      reply := Reply(500, ErrorText("API key not configured"));
      return;
    }
    var lastUserContent := FindLastUserContent(body.messages.entries);
    if lastUserContent == "" {
      reply := Reply(400, ErrorText("No user message provided"));
      return;
    }
    var maxTokens := ClampMaxTokens(MaxTokensCap, body.maxTokens, config.maxTokens);
    sent := Some(UpstreamRequest(config.apiUrl, config.apiKey, config.model, lastUserContent, maxTokens));
    reply, fetches, delays := HandleNormalResponse(config.retryCount, net);
  }
}
