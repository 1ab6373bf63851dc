/**
 * The chat widget's logic in ai-script.js (`aiAssistant`): where it sends a
 * question, what it sends, which part of the answer it shows, and the canned
 * answers it falls back on.
 */
module Assistant {
  import opened Js
  import Proxy
  import Upstream

  const ProxyPath := "/api/proxy"
  const Apology := "抱歉，AI暂时无法回答，请稍后再试。"
  const DefaultAnswer := "请询问关于古诗文、诗人或文学知识的问题。"

  /** The canned answers, in the order `Object.entries` visits them. */
  const Presets: seq<(string, string)> := [
    ("李白", "李白（701年-762年），字太白，号青莲居士，唐代伟大的浪漫主义诗人，被后人誉为\"诗仙\"。代表作品有《静夜思》、《将进酒》、《望庐山瀑布》等。"),
    ("静夜思", "《静夜思》是李白的代表作，原文：床前明月光，疑是地上霜。举头望明月，低头思故乡。这首诗表达了游子思乡的普遍情感。"),
    ("论语", "《论语》是儒家经典著作，记录了孔子及其弟子的言行。核心思想包括仁、义、礼、智、信等。"),
    ("苏轼", "苏轼（1037年-1101年），字子瞻，号东坡居士，北宋文学家、政治家。代表作品有《水调歌头·明月几时有》、《念奴娇·赤壁怀古》等。")
  ]

  /** `window.__AI_BASE__.replace(/\/$/, '')`: one trailing slash removed, if there is one. */
  function StripTrailingSlash(s: string): (stripped: string) {
    if |s| > 0 && s[|s| - 1] == '/' then s[..|s| - 1] else s
  }

  /**
   * `getApiUrl`: the configured base (a string; anything else makes
   * `replace` throw, which the `catch` turns into the bare path) with at
   * most one trailing slash removed, followed by `/api/proxy`.
   */
  function GetApiUrl(aiBase: Field): (url: string)
    ensures EndsWith(url, ProxyPath)
    ensures var prefix := url[..|url| - |ProxyPath|];
      && (aiBase.Str? ==> prefix == aiBase.s || prefix + "/" == aiBase.s)
      && (aiBase.Str? && !EndsWith(aiBase.s, "/") ==> prefix == aiBase.s)
      && (aiBase.Str? && EndsWith(aiBase.s, "/") ==> prefix + "/" == aiBase.s)
      && (!aiBase.Str? ==> prefix == "")
  {
    match aiBase
    case Str(b) =>
      if b == "" then ProxyPath
      else
        var base := StripTrailingSlash(b);
        (if base != "" then base else "") + ProxyPath
    case _ => ProxyPath
  }

  /** `window.__AI_DEV_CONFIG__`, when defined: whether `enable === true`, and the three overrides. */
  datatype DevConfig = DevConfig(enableIsTrue: bool, apiKey: Field, apiUrl: Field, model: Field)

  predicate DevEnabled(dev: Option<DevConfig>) {
    dev.Some? && dev.value.enableIsTrue
  }

  /** A development override is copied into the payload exactly when it is truthy. */
  predicate CopiedIfTruthy(source: Field, sent: Field) {
    if Truthy(source) then sent == source else sent == Absent
  }

  /** The payload `sendMessage` posts for `message` under the development configuration `dev`. */
  predicate PayloadFor(message: string, dev: Option<DevConfig>, payload: Proxy.ProxyBody) {
    && payload.message == Str(message)
    && payload.maxTokens == Undefined
    && (if DevEnabled(dev) then
          && CopiedIfTruthy(dev.value.apiKey, payload.apiKey)
          && CopiedIfTruthy(dev.value.apiUrl, payload.apiUrl)
          && CopiedIfTruthy(dev.value.model, payload.model)
        else
          payload.apiKey == Absent && payload.apiUrl == Absent && payload.model == Absent)
  }

  /** `const payload = { message }` followed by the conditional assignments of the overrides. */
  method BuildPayload(message: string, dev: Option<DevConfig>) returns (payload: Proxy.ProxyBody)
    ensures PayloadFor(message, dev, payload)
    ensures payload.apiKey != Absent ==> DevEnabled(dev) && Truthy(payload.apiKey)
    ensures payload.apiUrl != Absent ==> DevEnabled(dev) && Truthy(payload.apiUrl)
    ensures payload.model != Absent ==> DevEnabled(dev) && Truthy(payload.model)
  {
    payload := Proxy.ProxyBody(Str(message), Undefined, Absent, Absent, Absent);
    if dev.Some? && dev.value.enableIsTrue {
      if Truthy(dev.value.apiKey) {
        payload := payload.(apiKey := dev.value.apiKey);
      }
      if Truthy(dev.value.apiUrl) {
        payload := payload.(apiUrl := dev.value.apiUrl);
      }
      if Truthy(dev.value.model) {
        payload := payload.(model := dev.value.model);
      }
    }
  }

  /**
   * Whatever development overrides the widget adds, the proxy handler
   * decides exactly as it would for the bare `{message}`.
   */
  lemma OverridesNeverReachUpstream(message: string, dev: Option<DevConfig>, payload: Proxy.ProxyBody,
                                    verb: string, config: Upstream.Config)
    requires PayloadFor(message, dev, payload)
    ensures Proxy.ValidateProxy(verb, Proxy.Parsed(Proxy.Fields(payload)), config)
         == Proxy.ValidateProxy(verb, Proxy.Parsed(Proxy.Fields(Proxy.ProxyBody(Str(message), Undefined, Absent, Absent, Absent))), config)
  {
  }

  /** The parsed JSON of a successful answer: `data.reply` and `data.choices[0].message.content`. */
  datatype ReplyData = ReplyData(reply: Field, content: Field)

  /** `data.reply || data.choices?.[0]?.message?.content || '抱歉…'`. */
  function SelectReply(data: ReplyData): (shown: Field)
    ensures Truthy(shown)
    ensures Truthy(data.reply) ==> shown == data.reply
    ensures !Truthy(data.reply) && Truthy(data.content) ==> shown == data.content
    ensures !Truthy(data.reply) && !Truthy(data.content) ==> shown == Str(Apology)
  {
    FieldOr(FieldOr(data.reply, data.content), Str(Apology))
  }

  /** `query.includes(key) || key.includes(query)`. */
  predicate Matches(query: string, key: string) {
    Includes(query, key) || Includes(key, query)
  }

  /** The position of the first entry of `table` whose key matches, or |table| if none does. */
  function FindPreset(query: string, table: seq<(string, string)>): (i: nat)
    ensures i <= |table|
    ensures forall j :: 0 <= j < i ==> !Matches(query, table[j].0)
    ensures i < |table| ==> Matches(query, table[i].0)
  {
    if |table| == 0 then 0
    else if Matches(query, table[0].0) then 0
    else 1 + FindPreset(query, table[1..])
  }

  /** The five strings `getPresetResponse` can return. */
  function PresetAnswers(): (answers: seq<string>) {
    [Presets[0].1, Presets[1].1, Presets[2].1, Presets[3].1, DefaultAnswer]
  }

  /**
   * `getPresetResponse`: the answer of the first key, in table order, that
   * the query contains or that contains the query; otherwise the default.
   */
  function GetPresetResponse(query: string): (answer: string)
    ensures answer in PresetAnswers() && answer != ""
    ensures forall i ::
      (0 <= i < |Presets| && Matches(query, Presets[i].0) && (forall j :: 0 <= j < i ==> !Matches(query, Presets[j].0)))
      ==> answer == Presets[i].1
    ensures (forall i :: 0 <= i < |Presets| ==> !Matches(query, Presets[i].0)) ==> answer == DefaultAnswer
    ensures query == "" ==> answer == Presets[0].1
  {
    var i := FindPreset(query, Presets);
    if i < |Presets| then Presets[i].1 else DefaultAnswer
  }

  /** What the POST to the proxy handler produced: a rejected fetch, or a status and a JSON parse of it. */
  datatype ServerAnswer = Unreachable | Answered(status: int, data: Option<ReplyData>)

  /**
   * `sendMessage`: posts the payload to `getApiUrl()`; shows the selected
   * reply of a successful JSON answer, and the canned answer for the
   * question on any failure (no answer, a non-ok status, a body that is not JSON).
   */
  method SendMessage(message: string, aiBase: Field, dev: Option<DevConfig>, answer: ServerAnswer)
    returns (url: string, payload: Proxy.ProxyBody, shown: Field)
    ensures url == GetApiUrl(aiBase) && EndsWith(url, ProxyPath)
    ensures PayloadFor(message, dev, payload)
    ensures answer.Answered? && 200 <= answer.status <= 299 && answer.data.Some? ==>
      shown == SelectReply(answer.data.value)
    ensures !(answer.Answered? && 200 <= answer.status <= 299 && answer.data.Some?) ==>
      shown == Str(GetPresetResponse(message))
    ensures Truthy(shown)
  {
    payload := BuildPayload(message, dev);
    url := GetApiUrl(aiBase);
    var delivered := answer.Answered? && 200 <= answer.status <= 299 && answer.data.Some?;
    if delivered {
      shown := SelectReply(answer.data.value);
    } else {
      shown := Str(GetPresetResponse(message));
    }
  }
}
