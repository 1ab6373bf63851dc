/**
 * The upstream completion call shared by the two serverless handlers
 * (api/chat.js and api/proxy.js carry identical copies of
 * `fetchWithTimeoutAndRetry`), the configuration they read, the replies they
 * write, and the marker-triggered second call both handlers make.
 *
 * The network is an oracle: `net(i)` is the outcome of the i-th fetch a
 * request handler issues. A fetch cancelled by the timeout is the outcome
 * `Timeout`. Sleeping is recorded, not performed: every wait appears, in
 * milliseconds and in order, in a `delays` sequence.
 */
module Upstream {
  import opened Js

  /** `usage` of a completion: token counts by name. */
  datatype Usage = Usage(counts: map<string, int>)

  /** The parsed upstream JSON: `choices[0].message.content` and `usage`, when present. */
  datatype Completion = Completion(content: Option<string>, usage: Option<Usage>)

  /** An HTTP response from upstream: its status, its text, and its JSON parse (None if not JSON). */
  datatype Response = Response(status: int, text: string, json: Option<Completion>)

  /** What one fetch can do: fail at the network level, be aborted by the timeout, or answer. */
  datatype Outcome = NetErr(message: string) | Timeout | Resp(response: Response)

  /** What the handlers can catch. */
  datatype Error =
    | NetworkError(message: string)  // a rejected fetch
    | AbortError                     // the AbortController fired
    | UpstreamFailed                 // new Error('上游请求失败'): the loop never ran
    | InvalidJson                    // response.json() rejected
    | NoRequestBody                  // destructuring an undefined req.body

  /** The wrapper resolves to a response or rejects with an error. */
  datatype Fetched = Returned(response: Response) | Thrown(error: Error)

  /** One invocation of the wrapper: its result, how many fetches it issued, and its waits. */
  datatype Trace = Trace(result: Fetched, fetches: nat, delays: seq<int>)

  /**
   * The handler's configuration, read from the environment. An unset or empty
   * key is "". Integers are what `parseInt` produced (possibly NaN).
   */
  datatype Config = Config(apiKey: string, apiUrl: string, model: string, maxTokens: Num, retryCount: Num)

  /** The outbound request: where it goes, its bearer key, and the JSON fields that vary. */
  datatype UpstreamRequest = UpstreamRequest(url: string, apiKey: string, model: string, userContent: string, maxTokens: int)

  /** The JSON a handler writes back to its client. */
  datatype ReplyBody =
    | Empty                                         // res.end()
    | ErrorText(error: string)                      // { error: <text> }
    | ErrorMessage(cause: Error)                    // { error: err.message }
    | Forwarded(completion: Completion)             // the upstream JSON, unchanged
    | ProxyAnswer(reply: string, usage: Option<Usage>)  // { reply, usage }
    | UpstreamError(cause: Error)                   // { error: 'Upstream error', message }

  datatype Reply = Reply(status: int, body: ReplyBody)

  /** A handler either answers before any upstream call, or sends one request. */
  datatype Decision = Respond(reply: Reply) | Forward(request: UpstreamRequest)

  const RetryableStatus: set<int> := {429, 500, 502, 503, 504}
  const BaseDelayMs := 700
  const MarkerDelayMs := 600
  const Marker := "server_inner_error_openai"

  /** `response.ok`. */
  predicate Ok(r: Response) {
    200 <= r.status <= 299
  }

  function Pow2(k: nat): (p: nat)
    ensures p >= 1
  {
    if k == 0 then 1 else 2 * Pow2(k - 1)
  }

  /** `700 * Math.pow(2, attempt)`. */
  function Backoff(attempt: nat): (ms: int) {
    BaseDelayMs * Pow2(attempt)
  }

  /** The outcome of attempt `k` of a wrapper call whose first fetch is `net(start)`. */
  function At(net: nat -> Outcome, start: nat, k: nat): (o: Outcome) {
    net(start + k)
  }

  /** An attempt the loop retries while budget remains: a thrown fetch or a retryable status. */
  predicate Retryable(o: Outcome) {
    match o
    case Resp(r) => !Ok(r) && r.status in RetryableStatus
    case _ => true
  }

  /** What the wrapper does with an attempt it does not retry. */
  function Final(o: Outcome): (f: Fetched)
    ensures f != Thrown(UpstreamFailed)
  {
    match o
    case NetErr(m) => Thrown(NetworkError(m))
    case Timeout => Thrown(AbortError)
    case Resp(r) => Returned(r)
  }

  /** How many attempts `attempt <= retry_count` admits. */
  function AttemptBudget(retry: Num): (n: nat) {
    if retry.Int? && retry.value >= 0 then retry.value + 1 else 0
  }

  /**
   * The wrapper's loop from iteration `attempt` on, given the error caught so
   * far (`lastError`). The trace counts fetches and waits from `attempt` on.
   */
  function RetryFrom(retry: Num, net: nat -> Outcome, start: nat, attempt: nat, lastError: Option<Error>): (t: Trace)
    decreases if retry.Int? then retry.value - attempt else 0
  {
    if !AtMost(attempt, retry) then
      Trace(Thrown(if lastError.Some? then lastError.value else UpstreamFailed), 0, [])
    else
      var o := At(net, start, attempt);
      if Retryable(o) && Below(attempt, retry) then
        var rest := RetryFrom(retry, net, start, attempt + 1, if o.Resp? then lastError else Some(Final(o).error));
        Trace(rest.result, rest.fetches + 1, [Backoff(attempt)] + rest.delays)
      else
        Trace(Final(o), 1, [])
  }

  /** One whole call of `fetchWithTimeoutAndRetry` starting at fetch number `start`. */
  function Retry(retry: Num, net: nat -> Outcome, start: nat): (t: Trace) {
    RetryFrom(retry, net, start, 0, None)
  }

  /**
   * An independent description of a wrapper call. With no budget: no fetch,
   * and the generic error. Otherwise, with n fetches: 1 <= n <= retry + 1,
   * every attempt but the last was retryable, the last one was not retryable
   * unless it was attempt number `retry`, the wait after attempt k is
   * 700 * 2^k with no wait after the last, and the result is the last
   * attempt's response or error.
   */
  ghost predicate Characterizes(retry: Num, net: nat -> Outcome, start: nat, t: Trace) {
    if AttemptBudget(retry) == 0 then
      t == Trace(Thrown(UpstreamFailed), 0, [])
    else
      && 1 <= t.fetches <= AttemptBudget(retry)
      && (forall k :: 0 <= k < t.fetches - 1 ==> Retryable(At(net, start, k)))
      && (t.fetches < AttemptBudget(retry) ==> !Retryable(At(net, start, t.fetches - 1)))
      && |t.delays| == t.fetches - 1
      && (forall k :: 0 <= k < |t.delays| ==> t.delays[k] == Backoff(k))
      && t.result == Final(At(net, start, t.fetches - 1))
  }

  lemma {:induction false} RetryFromShape(retry: Num, net: nat -> Outcome, start: nat, attempt: nat, lastError: Option<Error>)
    requires AtMost(attempt, retry)
    ensures var t := RetryFrom(retry, net, start, attempt, lastError);
      && 1 <= t.fetches <= retry.value - attempt + 1
      && (forall k :: attempt <= k < attempt + t.fetches - 1 ==> Retryable(At(net, start, k)))
      && (attempt + t.fetches - 1 < retry.value ==> !Retryable(At(net, start, attempt + t.fetches - 1)))
      && |t.delays| == t.fetches - 1
      && (forall k :: 0 <= k < |t.delays| ==> t.delays[k] == Backoff(attempt + k))
      && t.result == Final(At(net, start, attempt + t.fetches - 1))
    decreases retry.value - attempt
  {
    var o := At(net, start, attempt);
    if Retryable(o) && Below(attempt, retry) {
      var le := if o.Resp? then lastError else Some(Final(o).error);
      RetryFromShape(retry, net, start, attempt + 1, le);
      var rest := RetryFrom(retry, net, start, attempt + 1, le);
      var t := RetryFrom(retry, net, start, attempt, lastError);
      assert t == Trace(rest.result, rest.fetches + 1, [Backoff(attempt)] + rest.delays);
      forall k | 0 <= k < |t.delays|
        ensures t.delays[k] == Backoff(attempt + k)
      {
        if k > 0 {
          assert t.delays[k] == rest.delays[k - 1];
        }
      }
    }
  }

  /** The wrapper call is described exactly by `Characterizes`. */
  lemma RetryCharacterized(retry: Num, net: nat -> Outcome, start: nat)
    ensures Characterizes(retry, net, start, Retry(retry, net, start))
  {
    if AttemptBudget(retry) > 0 {
      RetryFromShape(retry, net, start, 0, None);
    }
  }

  /** The wrapper fetches at most its budget, and throws the generic error exactly when it never fetched. */
  lemma RetryBudget(retry: Num, net: nat -> Outcome, start: nat)
    ensures Retry(retry, net, start).fetches <= AttemptBudget(retry)
    ensures Retry(retry, net, start).result == Thrown(UpstreamFailed) <==> Retry(retry, net, start).fetches == 0
  {
    RetryCharacterized(retry, net, start);
  }

  /** `Characterizes` leaves no freedom: at most one trace satisfies it. */
  lemma CharacterizationUnique(retry: Num, net: nat -> Outcome, start: nat, t1: Trace, t2: Trace)
    requires Characterizes(retry, net, start, t1) && Characterizes(retry, net, start, t2)
    ensures t1 == t2
  {
  }

  /**
   * `fetchWithTimeoutAndRetry` (api/chat.js, api/proxy.js): up to
   * `retry_count + 1` attempts, a response outside the retryable statuses
   * returned at once, and a wait of 700 * 2^attempt ms before each retry.
   */
  method FetchWithTimeoutAndRetry(retry: Num, net: nat -> Outcome, start: nat)
    returns (result: Fetched, fetches: nat, delays: seq<int>)
    ensures Trace(result, fetches, delays) == Retry(retry, net, start)
    ensures fetches <= AttemptBudget(retry)
    ensures result == Thrown(UpstreamFailed) <==> fetches == 0
  {
    var lastError: Option<Error> := None;
    var attempt: nat := 0;
    delays := [];
    while AtMost(attempt, retry)
      invariant |delays| == attempt
      invariant Retry(retry, net, start) == After(delays, RetryFrom(retry, net, start, attempt, lastError))
      decreases if retry.Int? then retry.value - attempt + 1 else 0
    {
      var outcome := At(net, start, attempt);
      match outcome {
        case Resp(resp) =>
          if !Ok(resp) && resp.status in RetryableStatus && Below(attempt, retry) {
            AfterBackoff(delays, attempt, RetryFrom(retry, net, start, attempt + 1, lastError));
            delays := delays + [Backoff(attempt)];
            attempt := attempt + 1;
            continue;
          }
          result, fetches := Returned(resp), attempt + 1;
          RetryBudget(retry, net, start);
          return;
        case NetErr(m) =>
          lastError := Some(NetworkError(m));
        case Timeout =>
          lastError := Some(AbortError);
      }
      if Below(attempt, retry) {
        AfterBackoff(delays, attempt, RetryFrom(retry, net, start, attempt + 1, lastError));
        delays := delays + [Backoff(attempt)];
        attempt := attempt + 1;
        continue;
      }
      result, fetches := Thrown(lastError.value), attempt + 1;
      RetryBudget(retry, net, start);
      return;
    }
    result, fetches := Thrown(if lastError.Some? then lastError.value else UpstreamFailed), attempt;
    RetryBudget(retry, net, start);
  }

  /** The trace of a whole call, given the waits so far and the trace of the rest of the loop. */
  function After(done: seq<int>, rest: Trace): (t: Trace) {
    Trace(rest.result, |done| + rest.fetches, done + rest.delays)
  }

  lemma AfterBackoff(done: seq<int>, attempt: nat, rest: Trace)
    ensures After(done, Trace(rest.result, rest.fetches + 1, [Backoff(attempt)] + rest.delays))
         == After(done + [Backoff(attempt)], rest)
  {
  }

  /** `response.status === 400 && errorText.includes('server_inner_error_openai')`. */
  predicate IsMarkerError(r: Response) {
    r.status == 400 && Includes(r.text, Marker)
  }

  /** A first wrapper result that makes a handler wait 600 ms and call the wrapper again. */
  predicate NeedsMarkerRetry(f: Fetched) {
    f.Returned? && !Ok(f.response) && IsMarkerError(f.response)
  }

  /**
   * The fetches and waits of a handler's upstream phase: one wrapper call,
   * then, only after a marker error, 600 ms and a second whole wrapper call
   * that starts at the next fetch.
   */
  ghost predicate UpstreamPhase(retry: Num, net: nat -> Outcome, fetches: nat, delays: seq<int>) {
    var first := Retry(retry, net, 0);
    var second := Retry(retry, net, first.fetches);
    if NeedsMarkerRetry(first.result) then
      fetches == first.fetches + second.fetches && delays == first.delays + [MarkerDelayMs] + second.delays
    else
      fetches == first.fetches && delays == first.delays
  }

  /**
   * Over the whole upstream phase: at most twice the wrapper's budget of
   * fetches, and the 600 ms wait is among the waits exactly when the marker
   * retry happened (no backoff is ever 600 ms).
   */
  lemma UpstreamPhaseBounds(retry: Num, net: nat -> Outcome, fetches: nat, delays: seq<int>)
    requires UpstreamPhase(retry, net, fetches, delays)
    ensures fetches <= 2 * AttemptBudget(retry)
    ensures !NeedsMarkerRetry(Retry(retry, net, 0).result) ==> fetches <= AttemptBudget(retry)
    ensures MarkerDelayMs in delays <==> NeedsMarkerRetry(Retry(retry, net, 0).result)
  {
    var first := Retry(retry, net, 0);
    var second := Retry(retry, net, first.fetches);
    RetryCharacterized(retry, net, 0);
    RetryCharacterized(retry, net, first.fetches);
    forall k | 0 <= k < |first.delays|
      ensures first.delays[k] != MarkerDelayMs
    {
      assert first.delays[k] == Backoff(k);
    }
    if NeedsMarkerRetry(first.result) {
      assert delays[|first.delays|] == MarkerDelayMs;
    }
  }

  /**
   * The marker retry happens whatever the retry budget: with `retry_count`
   * 0, a marker error on the first fetch still leads to exactly one more fetch.
   */
  lemma MarkerRetryIgnoresBudget(net: nat -> Outcome, fetches: nat, delays: seq<int>)
    requires net(0).Resp? && IsMarkerError(net(0).response)
    requires UpstreamPhase(Int(0), net, fetches, delays)
    ensures fetches == 2
    ensures delays == [MarkerDelayMs]
  {
  }

  /** `Math.min(cap, client || configured || cap)`, the outbound `max_tokens`. */
  function ClampMaxTokens(cap: int, client: Num, configured: Num): (r: int)
    ensures r <= cap
    ensures NumTruthy(client) ==> r == MinInt(cap, client.value)
    ensures !NumTruthy(client) && NumTruthy(configured) ==> r == MinInt(cap, configured.value)
    ensures !NumTruthy(client) && !NumTruthy(configured) ==> r == cap
  {
    Min(cap, NumOr(NumOr(client, configured), Int(cap))).value
  }
}
