/** Properties that relate several operations of the chat hook, or that
    pin the request and reply formats down on concrete inputs. */
module ChatProperties {
  import opened Wrappers
  import opened Json
  import opened Text
  import opened Messages
  import opened History
  import opened Reply
  import opened Request
  import opened Chat

  /** The configured keys do not collide with each other or with the fixed
      `action` and `metadata` keys. */
  predicate DistinctKeys(cfg: Config) {
    && cfg.sessionKey != cfg.inputKey
    && cfg.sessionKey != "action" && cfg.sessionKey != "metadata"
    && cfg.inputKey != "action" && cfg.inputKey != "metadata"
  }

  /** With non-colliding keys the send request carries `action =
      sendMessage`, the current session id (or `''` without one) under the
      session key, the text under the input key, and `metadata` exactly when
      truthy metadata is configured; each parameter once, and nothing else. */
  lemma SendParamsFields(cfg: Config, state: ChatState, text: string, codec: Codec)
    requires DistinctKeys(cfg)
    ensures var p := SendParams(cfg, state, text, codec);
      && Lookup(p, "action") == Some("sendMessage")
      && Lookup(p, cfg.sessionKey) == Some(state.currentSessionId.GetOr(""))
      && Lookup(p, cfg.inputKey) == Some(text)
      && Lookup(p, "metadata") ==
         (if cfg.metadata.Some? && Truthy(cfg.metadata.value)
          then Some(codec.stringify(cfg.metadata.value)) else None)
      && |p| == (if cfg.metadata.Some? && Truthy(cfg.metadata.value) then 4 else 3)
      && KeysDistinct(p)
  {
    var e0: Entries := [];
    var sid := state.currentSessionId.GetOr("");
    var e1 := Assign(e0, "action", "sendMessage");
    var e2 := Assign(e1, cfg.sessionKey, sid);
    var e3 := Assign(e2, cfg.inputKey, text);
    AssignLookup(e1, cfg.sessionKey, sid, cfg.sessionKey);
    AssignLookup(e1, cfg.sessionKey, sid, "action");
    AssignLookup(e1, cfg.sessionKey, sid, cfg.inputKey);
    AssignLookup(e1, cfg.sessionKey, sid, "metadata");
    AssignLookup(e2, cfg.inputKey, text, cfg.sessionKey);
    AssignLookup(e2, cfg.inputKey, text, "action");
    AssignLookup(e2, cfg.inputKey, text, cfg.inputKey);
    AssignLookup(e2, cfg.inputKey, text, "metadata");
    AssignKeys(e0, "action", "sendMessage");
    AssignKeys(e1, cfg.sessionKey, sid);
    AssignKeys(e2, cfg.inputKey, text);
    if cfg.metadata.Some? && Truthy(cfg.metadata.value) {
      var m := codec.stringify(cfg.metadata.value);
      AssignLookup(e3, "metadata", m, cfg.sessionKey);
      AssignLookup(e3, "metadata", m, "action");
      AssignLookup(e3, "metadata", m, cfg.inputKey);
      AssignLookup(e3, "metadata", m, "metadata");
      AssignKeys(e3, "metadata", m);
    }
  }

  /** The keys are not checked for collisions: an input key spelled
      `action` silently replaces the action with the user's text. */
  lemma InputKeyShadowsAction(cfg: Config, state: ChatState, text: string, codec: Codec)
    requires cfg.inputKey == "action"
    ensures Lookup(SendParams(cfg, state, text, codec), "action") == Some(text)
  {
    var e1 := Assign([], "action", "sendMessage");
    var e2 := Assign(e1, cfg.sessionKey, state.currentSessionId.GetOr(""));
    var e3 := Assign(e2, "action", text);
    AssignLookup(e2, "action", text, "action");
    if cfg.metadata.Some? && Truthy(cfg.metadata.value) {
      AssignLookup(e3, "metadata", codec.stringify(cfg.metadata.value), "action");
    }
  }

  /** The send form lists the parameters first and then one `files` part
      per attached file, in the order given. */
  lemma SendFormFiles(cfg: Config, state: ChatState, text: string, files: seq<File>, codec: Codec)
    ensures var req := SendRequest(cfg, state, text, files, codec);
      var n := |SendParams(cfg, state, text, codec)|;
      && req.payload.Form?
      && |req.payload.parts| == n + |files|
      && forall j :: 0 <= j < |files| ==> req.payload.parts[n + j] == FilePart("files", files[j])
  {
  }

  /** When the session key is neither `action` nor `metadata`, the history
      request carries `action = loadPreviousSession`, the session id under
      the session key, and `metadata` exactly when truthy metadata is
      configured; each parameter once, and nothing else. It travels as a
      query string exactly when GET is configured. The input key plays no
      part. */
  lemma LoadRequestFields(cfg: Config, session: string, codec: Codec)
    requires cfg.sessionKey != "action" && cfg.sessionKey != "metadata"
    ensures var p := LoadParams(cfg, session, codec);
      && Lookup(p, "action") == Some("loadPreviousSession")
      && Lookup(p, cfg.sessionKey) == Some(session)
      && Lookup(p, "metadata") ==
         (if cfg.metadata.Some? && Truthy(cfg.metadata.value)
          then Some(codec.stringify(cfg.metadata.value)) else None)
      && |p| == (if cfg.metadata.Some? && Truthy(cfg.metadata.value) then 3 else 2)
      && KeysDistinct(p)
      && (LoadRequest(cfg, session, codec).payload.Query? <==> cfg.webhook.httpMethod == Some(GET))
  {
    var e0: Entries := [];
    var e1 := Assign(e0, "action", "loadPreviousSession");
    var e2 := Assign(e1, cfg.sessionKey, session);
    AssignLookup(e1, cfg.sessionKey, session, cfg.sessionKey);
    AssignLookup(e1, cfg.sessionKey, session, "action");
    AssignLookup(e1, cfg.sessionKey, session, "metadata");
    AssignKeys(e0, "action", "loadPreviousSession");
    AssignKeys(e1, cfg.sessionKey, session);
    if cfg.metadata.Some? && Truthy(cfg.metadata.value) {
      var m := codec.stringify(cfg.metadata.value);
      AssignLookup(e2, "metadata", m, cfg.sessionKey);
      AssignLookup(e2, "metadata", m, "action");
      AssignLookup(e2, "metadata", m, "metadata");
      AssignKeys(e2, "metadata", m);
    }
  }

  /** The session id a load writes to storage is the one a later load,
      by this or by a fresh hook sharing the storage, reads back: the later
      load reuses it and leaves the storage as it is. */
  lemma SessionRoundTrip(h1: Hook, h2: Hook, store: Store, env1: Env, env2: Env,
                         reply1: Fetched, reply2: Fetched, codec: Codec)
    requires h1.cfg.loadPrevious && h2.cfg.loadPrevious
    ensures var first := LoadSession(h1, store, env1, reply1, codec);
      var second := LoadSession(h2, first.store, env2, reply2, codec);
      && second.store == first.store
      && second.hook.state.currentSessionId == first.hook.state.currentSessionId
  {
  }

  /** After `startSession`, a load reuses the new session id instead of
      creating another one. */
  lemma StartThenLoad(h: Hook, env1: Env, env2: Env, reply: Fetched, codec: Codec)
    requires h.cfg.loadPrevious
    ensures var (started, store) := StartSession(h, env1);
      var loaded := LoadSession(started, store, env2, reply, codec);
      && loaded.store == store
      && loaded.hook.state.currentSessionId == Some(env1.uuid(0))
      && loaded.request == Some(LoadRequest(h.cfg, env1.uuid(0), codec))
  {
  }

  /** A successful load replaces the message list wholesale: an empty reply
      body wipes the messages of the previous state, whatever they were. */
  lemma EmptyBodyClearsMessages(h: Hook, store: Store, env: Env, codec: Codec)
    requires h.cfg.loadPrevious
    ensures var r := LoadSession(h, store, env, Received(Some("")), codec);
      r.outcome.Loaded? && r.hook.state.messages == []
  {
  }

  /** A load that is switched off does nothing at all, so it can be
      repeated without effect. */
  lemma DisabledLoadIsIdentity(h: Hook, store: Store, env1: Env, env2: Env, reply1: Fetched,
                               reply2: Fetched, codec: Codec)
    requires !h.cfg.loadPrevious
    ensures var first := LoadSession(h, store, env1, reply1, codec);
      var second := LoadSession(first.hook, first.store, env2, reply2, codec);
      second.hook == h && second.store == store && second.outcome.Disabled?
  {
  }

  /** Two history entries in the webhook's format: a human message with
      content `hi`, then an AI message with content `hello`. */
  const SampleHistory: seq<Json> := [
    JObject(map["id" := JString("HumanMessage-1"), "kwargs" := JObject(map["content" := JString("hi")])]),
    JObject(map["id" := JString("AIMessage-2"), "kwargs" := JObject(map["content" := JString("hello")])])
  ]

  /** The first sample entry is a user message `hi` with id `0`. */
  lemma HumanSampleEntry(stamp: string)
    ensures MapEntry(SampleHistory[0], 0, stamp) == Success(Msg("0", JString("hi"), User, stamp))
  {
    var human := "HumanMessage-1";
    assert human[..|HumanMarker|] == HumanMarker;
    assert Includes(human, HumanMarker);
    assert Get(SampleHistory[0], "id") == Some(JString(human));
    assert EntryText(SampleHistory[0]) == JString("hi");
  }

  /** The second sample entry is a bot message `hello` with id `1`: its id
      is too short to contain the marker. */
  lemma AiSampleEntry(stamp: string)
    ensures MapEntry(SampleHistory[1], 1, stamp) == Success(Msg("1", JString("hello"), Bot, stamp))
  {
    var ai := "AIMessage-2";
    ShorterExcludes(ai, HumanMarker);
    assert Get(SampleHistory[1], "id") == Some(JString(ai));
    assert EntryText(SampleHistory[1]) == JString("hello");
  }

  /** Mapping a two-entry history whose entries both map gives their two
      messages, in order. */
  lemma MapTwoEntries(a: Json, b: Json, clock: nat -> string)
    requires MapEntry(a, 0, clock(0)).Success? && MapEntry(b, 1, clock(1)).Success?
    ensures MapHistory([a, b], clock)
            == Success([MapEntry(a, 0, clock(0)).value, MapEntry(b, 1, clock(1)).value])
  {
    var data := [a, b];
    var ma, mb := MapEntry(a, 0, clock(0)).value, MapEntry(b, 1, clock(1)).value;
    assert data[0] == a && data[1..] == [b];
    assert [b][0] == b && [b][1..] == [];
    assert MapFrom([], 2, clock) == Success([]);
    assert [mb] + [] == [mb];
    assert MapFrom([b], 1, clock) == Success([mb]);
    assert [ma] + [mb] == [ma, mb];
    assert MapFrom(data, 0, clock) == Success([ma, mb]);
  }

  /** The sample history maps to a user message `hi` then a bot message
      `hello`, with ids `0` and `1`. */
  lemma SampleHistoryMaps(clock: nat -> string)
    ensures MapHistory(SampleHistory, clock)
            == Success([Msg("0", JString("hi"), User, clock(0)), Msg("1", JString("hello"), Bot, clock(1))])
  {
    HumanSampleEntry(clock(0));
    AiSampleEntry(clock(1));
    assert SampleHistory == [SampleHistory[0], SampleHistory[1]];
    MapTwoEntries(SampleHistory[0], SampleHistory[1], clock);
  }

  /** A `{"foo": "bar"}` reply has neither `output` nor `text`, so the bot
      message is the pretty-printed object; `{}` gives the empty string. */
  lemma SampleReplies(codec: Codec)
    ensures var foo := JObject(map["foo" := JString("bar")]);
      ReplyContent(foo, codec) == Success(JString(codec.pretty(foo)))
    ensures ReplyContent(EmptyObject, codec) == Success(JString(""))
  {
    var foo := JObject(map["foo" := JString("bar")]);
    assert Chosen(foo.fields) == JString("");
    assert |foo.fields| == 1;
  }

  /** Whatever the flag was before, a completed send leaves the hook not
      waiting and adds exactly a user message with the given text followed
      by a bot message; a send whose request fails leaves it waiting with
      only the user message added. */
  lemma SendWaitingFlag(h: Hook, text: string, files: seq<File>, env: Env, reply: Fetched, codec: Codec)
    ensures var r := SendMessage(h, text, files, env, reply, codec);
      && (r.outcome.Sent? ==>
            && !r.hook.state.waiting
            && r.hook.state.messages[|h.state.messages|].sender == User
            && r.hook.state.messages[|h.state.messages|].text == JString(text)
            && r.hook.state.messages[|h.state.messages| + 1].sender == Bot)
      && (reply.Unreachable? ==>
            && r.hook.state.waiting
            && r.hook.state.messages == h.state.messages + [Msg(env.uuid(0), JString(text), User, env.clock(0))])
  {
  }

  /** A plain-text reply becomes the bot message verbatim. */
  lemma PlainTextReply(h: Hook, text: string, files: seq<File>, env: Env, body: string, codec: Codec)
    requires body != "" && codec.parse(body).None?
    ensures var r := SendMessage(h, text, files, env, Received(Some(body)), codec);
      r.outcome.Sent? && r.hook.state.messages[|h.state.messages| + 1].text == JString(body)
  {
  }
}
