/** The reply selector of `sendMessage`: from the body of the webhook's
    reply to the content of the bot message. */
module Reply {
  import opened Wrappers
  import opened Json
  import opened Messages

  /** The decoded reply body: the empty object for an empty body, and an
      object whose `text` is the raw body when the body is not JSON. */
  function DecodeReply(raw: string, codec: Codec): Json {
    if raw == "" then EmptyObject
    else match codec.parse(raw)
      case None => JObject(map["text" := JString(raw)])
      case Some(v) => v
  }

  /** The member a decoded object's reply is read from: a present,
      non-null `output`; else a present, non-null `text`; else `''`. */
  function Chosen(fields: map<string, Json>): Json {
    if "output" in fields && !fields["output"].JNull? then fields["output"]
    else if "text" in fields && !fields["text"].JNull? then fields["text"]
    else JString("")
  }

  /** The first of `output` and `text` that is present and not `null` (the
      empty string when neither is), replaced by the pretty-printed dump of
      the whole decoded value when that is falsy and the value has at least
      one key. Reading `output` of a `null` result throws. */
  function ReplyContent(result: Json, codec: Codec): (r: Result<Json, TypeError>)
    ensures r.Failure? <==> result.JNull?
    ensures result.JObject? ==>
      && (Truthy(Chosen(result.fields)) ==> r.value == Chosen(result.fields))
      && (!Truthy(Chosen(result.fields)) && |result.fields| > 0 ==> r.value == JString(codec.pretty(result)))
      && (|result.fields| == 0 ==> r.value == JString(""))
    ensures !result.JNull? && !result.JObject? ==>
      r == Success(if KeyCount(result) > 0 then JString(codec.pretty(result)) else JString(""))
  {
    if result.JNull? then Failure(NullReceiver("output"))
    else
      var content := Coalesce(Get(result, "output"), Coalesce(Get(result, "text"), JString("")));
      if !Truthy(content) && KeyCount(result) > 0 then Success(JString(codec.pretty(result)))
      else Success(content)
  }

  /** The content a reply body yields: decode it, then select the content. An empty
      body gives `''`; a non-empty body that is not JSON is passed through
      as is; and the selection throws only for a body that decodes to
      `null`. */
  function SelectReply(raw: string, codec: Codec): (r: Result<Json, TypeError>)
    ensures raw == "" ==> r == Success(JString(""))
    ensures raw != "" && codec.parse(raw).None? ==> r == Success(JString(raw))
    ensures r.Failure? <==> raw != "" && codec.parse(raw) == Some(JNull)
    ensures raw != "" && codec.parse(raw).Some? ==> r == ReplyContent(codec.parse(raw).value, codec)
  {
    ReplyContent(DecodeReply(raw, codec), codec)
  }

  /** A truthy `output` wins whatever `text` says. */
  lemma OutputWins(fields: map<string, Json>, codec: Codec)
    requires "output" in fields && Truthy(fields["output"])
    ensures ReplyContent(JObject(fields), codec) == Success(fields["output"])
  {
  }

  /** A falsy but non-null `output` (such as `''`, `0` or `false`) still
      shadows `text`: the content is the dump of the whole object, not the
      `text` member. */
  lemma FalsyOutputShadowsText(fields: map<string, Json>, codec: Codec)
    requires "output" in fields && !fields["output"].JNull? && !Truthy(fields["output"])
    ensures ReplyContent(JObject(fields), codec) == Success(JString(codec.pretty(JObject(fields))))
  {
  }

  /** When the pretty-printer never returns the empty string (true of
      `JSON.stringify` on a non-null value), the content of any successful
      selection is falsy only if the decoded value has no keys. */
  lemma FalsyContentMeansNoKeys(raw: string, codec: Codec)
    requires forall v :: codec.pretty(v) != ""
    ensures var r := SelectReply(raw, codec);
      r.Success? && !Truthy(r.value) ==> KeyCount(DecodeReply(raw, codec)) == 0
  {
  }
}
