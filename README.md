# A Dafny model of the poem-site chat relay

The repository is a chat widget for a classical-Chinese study site plus two
serverless handlers that relay a question to an OpenAI-style completion API.
This project models the decision logic of all three pieces:

- `fetchWithTimeoutAndRetry`, the retry wrapper that api/chat.js and
  api/proxy.js both carry, is modelled once (module `Upstream`, file
  `upstream.dfy`). It is an imperative loop (`FetchWithTimeoutAndRetry`).
  The loop is proved equal to a recursive definition (`Retry`). That
  definition is then proved to satisfy a non-recursive description of
  the whole call. The description states the attempt bound, the
  early-return rule, the waits and the result of the last attempt
  (`Characterizes`, `RetryCharacterized`). It is also shown to determine
  the call completely (`CharacterizationUnique`).
- The network is an oracle `net: nat -> Outcome`: `net(i)` is the outcome of
  the i-th fetch a handler issues. It is one of `NetErr`, `Timeout` (the
  AbortController fired) or `Resp(response)`. Waits are not performed.
  They are recorded in milliseconds, in order, in a `delays` sequence.
  Every handler also returns how many fetches it issued.
- The `/api/chat` handler (module `Chat`, `chat.dfy`) and the `/api/proxy`
  handler (module `Proxy`, `proxy.dfy`) are each split in two. A pure
  function decides everything that happens before the upstream call
  (`ValidateChat`, `ValidateProxy`): the order of the checks, the extracted
  message, and the clamped `max_tokens`. A method runs the upstream phase.
  That phase is the first wrapper call, then, after a 400 whose text
  contains `server_inner_error_openai`, a 600 ms wait and a second whole
  wrapper call. Its reply is specified by `ChatReply` and `ProxyReply`. The
  two handlers map the second result differently. api/chat.js always
  answers with the error branch once the first response was not ok: it
  takes the status of the latest response and the latest non-ok text,
  unless the second wrapper call throws, which gives 500 with the error's
  message. So
  a marker retry that succeeds still yields `{error: <first text>}` with
  the success status (`MarkerRecoveryStillReportsError`). api/proxy.js
  goes on to build `{reply, usage}` from the second response.
- The widget (module `Assistant`, `assistant.dfy`) covers `getApiUrl`, the
  payload and reply choice of `sendMessage`, and the ordered
  canned-answer table of `getPresetResponse`.
- Module `Js` (`js.dfy`) holds the JavaScript rules the code relies on:
  truthiness, `||`, `Math.min`, comparison with NaN, and `includes`.

Values: configuration integers are what `parseInt` produced, including
`NaN` (`Js.Num`). A JSON property is missing, a string, or another value of
which only its truthiness is used (`Js.Field`). An unset API key is the
empty string. The retry count that api/proxy.js re-reads from the
environment on every iteration is one parameter, because the environment
does not change during a request.

api/chat.js answers OPTIONS with 200 and api/proxy.js with 204. After a
marker retry that succeeds, api/chat.js still answers with the error body:
the second response's status with the first response's text.

## Model

| member | source | states |
|---|---|---|
| `Upstream.FetchWithTimeoutAndRetry` | api/chat.js:138-166 | The loop's fetch count, waits and result equal the recursive definition `Retry`. It fetches at most `retry_count + 1` times. It throws the generic error exactly when it fetched nothing. |
| `Upstream.RetryFromShape` | api/proxy.js:100-128 | From any attempt within budget the loop issues at least one fetch and stays within the budget left. Every attempt but the last was a thrown fetch or a retryable status. The last is non-retryable unless it used the final attempt. The wait after attempt k is 700 * 2^k. The result is the last attempt's response or error. |
| `Upstream.RetryCharacterized` | api/chat.js:139-165 | A whole wrapper call satisfies `Characterizes`. With a negative or NaN retry count there is no fetch and the generic error. A non-retryable response is returned from the attempt that produced it. There is no wait after the final attempt. On the final attempt a retryable response is returned and a thrown fetch is rethrown. |
| `Upstream.RetryBudget` | api/chat.js:142-165 | At most `retry_count + 1` fetches. The generic `上游请求失败` error is thrown if and only if no fetch happened. |
| `Upstream.CharacterizationUnique` | api/chat.js:138-166 | At most one trace satisfies `Characterizes`, so the description fixes the fetch count, the waits and the result. |
| `Upstream.UpstreamPhaseBounds` | api/chat.js:100-124 | A handler's upstream phase issues at most twice the wrapper's budget of fetches, and at most the budget without a marker error. The 600 ms wait occurs if and only if the marker retry happened. |
| `Upstream.MarkerRetryIgnoresBudget` | api/proxy.js:69-84 | With `retry_count` 0, a marker error on the first fetch still leads to exactly one more fetch after a single 600 ms wait. |
| `Upstream.ClampMaxTokens` | api/chat.js:88 | The result never exceeds the cap. It is `min(cap, client)` when the client value is truthy. A falsy client value, 0 included, falls through to `min(cap, configured)` when that is truthy, and otherwise to the cap. |
| `Js.IncludesAt` | api/chat.js:112 | The recursive `Includes` holds exactly when the substring occurs at some index. |
| `Chat.LastUserTextIsLatest` | api/chat.js:62-71 | The extracted content is that of the highest-index message with role `user` and string content. Earlier user messages are never used, even when that content is empty. |
| `Chat.LastUserTextNone` | api/chat.js:62-71 | With no user message of string content, the extracted content is empty. |
| `Chat.FindLastUserContent` | api/chat.js:65-70 | The backwards loop computes `LastUserText` of the messages. |
| `Chat.ValidateChat` | api/chat.js:41-88 | A request is forwarded if and only if it is a POST with an array `messages`, a configured key and a non-empty last user message. A forwarded request carries that message, the configured URL, key and model, and `max_tokens` at most 300. OPTIONS answers 200. Every other method answers 405 "Method not allowed". A POST with no body answers 500 with the missing-body error. A `messages` that is not an array answers 400 "Messages array is required". An array with no key configured answers 500 "API key not configured". A configured key with an empty last user message answers 400 "No user message provided". |
| `Chat.ChatReply` | api/chat.js:110-133 | The upstream JSON is forwarded with 200 if and only if the first result was ok and JSON. A non-ok, non-marker first response gives its status and text. An ok first response that is not JSON gives 500 with the invalid-JSON error. After a marker retry that returns, the reply has the second response's status and an error body: the second response's text, or the first response's text when the second was ok. A throw from either wrapper call gives 500 with that error. |
| `Chat.MarkerRecoveryStillReportsError` | api/chat.js:110-126 | A marker error followed by an ok response yields the ok status with the first error text, never the forwarded completion. |
| `Chat.HandleNormalResponse` | api/chat.js:98-135 | The fetches and waits are those of `UpstreamPhase`. The reply is `ChatReply` of the first and second wrapper results. |
| `Chat.HandleChat` | api/chat.js:32-96 | An early answer of `ValidateChat` is returned with no fetch, no wait and nothing sent. Otherwise the validated request is sent and the upstream phase decides the reply. |
| `Proxy.ValidateProxy` | api/proxy.js:8-56 | A request is forwarded if and only if it is a POST, its body parses, `message` is a non-empty string and a key is configured. A forwarded request carries that message and `max_tokens` at most 800. OPTIONS answers 204. Every other method answers 405 "Method not allowed". A string body that is not JSON answers 400 "Invalid JSON body". A parsed body whose `message` is not a non-empty string answers 400 "Message is required". A valid message with no key configured answers 500 "OPENAI_API_KEY is not configured". A 500 implies that the body and message were valid, so the key check comes last. |
| `Proxy.ClientOverridesIgnored` | api/proxy.js:19-56 | Client-supplied `apiKey`, `apiUrl` and `model` never change the decision or the outbound request. |
| `Proxy.TextBodyParsed` | api/proxy.js:12-17 | A string body is handled exactly like the value it parses to. |
| `Proxy.Answer` | api/proxy.js:91-93 | A JSON response gives 200 with `choices[0].message.content`, or "" when absent, and `usage` or null. A body that is not JSON gives 500. |
| `Proxy.ProxyReply` | api/proxy.js:69-96 | A throw from either wrapper call gives 500 `Upstream error` with that error. An ok first response is answered. A non-ok, non-marker first response gives its status and text. After a marker retry, an ok second response is answered and a non-ok one gives its status and text. The reply has status 200 if and only if it is `{reply, usage}`. |
| `Proxy.ProxyUpstream` | api/proxy.js:58-96 | The fetches and waits are those of `UpstreamPhase`. The reply is `ProxyReply` of the first and second wrapper results. |
| `Proxy.HandleProxy` | api/proxy.js:2-97 | An early answer of `ValidateProxy` is returned with no fetch, no wait and nothing sent. Otherwise the validated request is sent and `ProxyReply` decides the reply. |
| `Proxy.PoetExample` | api/proxy.js:46-93 | `{message: "李白是谁"}` with an upstream answering content "诗人" and usage `{total_tokens: 10}` is forwarded. It needs one fetch and no wait, and gets 200 with that reply and usage. |
| `Assistant.GetApiUrl` | ai-script.js:5-20 | The URL always ends in `/api/proxy`. What precedes it is the string base, or the base minus one trailing `/`. A base without a trailing `/` is kept whole, and a base ending in `/` loses exactly that `/`. With no string base the URL is the bare path. |
| `Assistant.BuildPayload` | ai-script.js:25-31 | The payload always holds `message`. `apiKey`, `apiUrl` and `model` are present only when `enable === true`, and each only when its value is truthy, in which case it is copied unchanged. |
| `Assistant.OverridesNeverReachUpstream` | ai-script.js:25-38 | Whatever development overrides the widget adds, the proxy handler decides exactly as for the bare `{message}`. |
| `Assistant.SelectReply` | ai-script.js:56 | The reply shown is `data.reply` if truthy, else `choices[0].message.content` if truthy, else the apology. It is always truthy. |
| `Assistant.FindPreset` | ai-script.js:72-76 | The index found is the first one whose key the query contains or that contains the query. It is the table length if there is none. |
| `Assistant.GetPresetResponse` | ai-script.js:64-79 | The answer is one of exactly five fixed strings. It belongs to the first matching key in the order 李白, 静夜思, 论语, 苏轼, or is the default when nothing matches. An empty query gets the 李白 answer. |
| `Assistant.SendMessage` | ai-script.js:22-62 | The widget posts `PayloadFor` to `GetApiUrl`. It shows `SelectReply` of a successful JSON answer. For a failed fetch, a non-ok status or an unparsable body it shows `getPresetResponse(message)`. |

## Left out

- Real networking and timers: `fetch`, `AbortController`, `setTimeout` and `clearTimeout` become the outcome oracle and the recorded `delays`. The timeout length (`request_timeout_ms`) therefore plays no part, and a wait of more than 2^31 - 1 ms is not special.
- `Upstream.FetchWithTimeoutAndRetry`: the delay `700 * Math.pow(2, attempt)` is an exact integer, not a JavaScript double.
- Temperature: a float parsed with `parseFloat` that is only passed through.
- `parseInt` of environment variables and their defaults ('512', '600', '20000', '2'): configuration values are given, with NaN as `Js.NaN`.
- `JSON.parse` and `JSON.stringify`: a parsed body is a datatype, and a parse failure is `Text(None)` or `json == None`.
- The system-prompt texts, the `User-Agent` and `Content-Type` headers, CORS and security headers, and all `console.error` logging.
- Non-integer `max_tokens` from a client, such as a string or a fraction, which `Math.min` would coerce or turn into NaN.
- A `choices[0].message.content` that is present but not a string, and a `response.text()` that rejects.
- The `location.protocol` test in `getApiUrl`: it only logs.
- All DOM code in ai-script.js (`showAIAssistant`, `addMessageToChat`, the loading indicator, the key listener, `sendAIMessage`).
- The unused `eventsource-parser` import of api/chat.js.
- Concurrency between requests. Each request is handled on its own and no state is shared.
