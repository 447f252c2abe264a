/** The chat hook `useChat` as a sequential state machine. Each operation
    is a pure function from the hook, the persisted session cell and the
    oracle inputs it observes (fresh ids, clock readings, the webhook's
    reply, the JSON library) to the next hook, the next cell and what the
    JavaScript function returns or throws. */
module Chat {
  import opened Wrappers
  import opened Json
  import opened Messages
  import opened History
  import opened Reply
  import opened Request

  const DefaultSessionKey: string := "sessionId"
  const DefaultInputKey: string := "chatInput"

  datatype WebhookConfig = WebhookConfig(httpMethod: Option<Method>, headers: Option<map<string, string>>)

  /** The options a caller passes to `useChat`; `None` is an omitted one. */
  datatype Options = Options(
    webhookUrl: string,
    webhookConfig: Option<WebhookConfig>,
    chatSessionKey: Option<string>,
    chatInputKey: Option<string>,
    metadata: Option<Json>,
    initialMessages: Option<seq<string>>,
    loadPreviousSession: Option<bool>)

  /** The options after the defaults of the destructuring are applied. */
  datatype Config = Config(
    webhookUrl: string,
    webhook: WebhookConfig,
    sessionKey: string,
    inputKey: string,
    metadata: Option<Json>,
    initialMessages: seq<string>,
    loadPrevious: bool)

  /** Applies the hook's defaults: POST with no headers, the keys
      `sessionId` and `chatInput`, no initial messages, and loading the
      previous session. A supplied option is kept as given. */
  function Resolve(o: Options): (c: Config)
    ensures c.webhookUrl == o.webhookUrl && c.metadata == o.metadata
    ensures c.webhook == o.webhookConfig.GetOr(WebhookConfig(Some(POST), Some(map[])))
    ensures c.sessionKey == o.chatSessionKey.GetOr("sessionId")
    ensures c.inputKey == o.chatInputKey.GetOr("chatInput")
    ensures c.initialMessages == o.initialMessages.GetOr([])
    ensures c.loadPrevious == o.loadPreviousSession.GetOr(true)
  {
    Config(
      o.webhookUrl,
      o.webhookConfig.GetOr(WebhookConfig(Some(POST), Some(map[]))),
      o.chatSessionKey.GetOr(DefaultSessionKey),
      o.chatInputKey.GetOr(DefaultInputKey),
      o.metadata,
      o.initialMessages.GetOr([]),
      o.loadPreviousSession.GetOr(true))
  }

  /** A copy of the configured headers, or no headers when none are configured. */
  function Headers(cfg: Config): map<string, string> {
    cfg.webhook.headers.GetOr(map[])
  }

  /** The reactive state the hook exposes. */
  datatype ChatState = ChatState(
    welcome: Option<Msg>,
    messages: seq<Msg>,
    currentSessionId: Option<string>,
    waiting: bool)

  /** A hook instance: its configuration, the initial messages (computed
      once, so their ids never change) and its current state. */
  datatype Hook = Hook(cfg: Config, initial: seq<Msg>, state: ChatState)

  /** The one local-storage key the hook uses, `chat-session`, as a cell:
      `None` when nothing is stored. */
  type Store = Option<string>

  /** What a `fetch` produced: a rejected request, or a response whose
      body text was read (`None` when reading it threw). */
  datatype Fetched = Unreachable | Received(body: Option<string>)

  /** The text of a response body; a body that cannot be read counts as empty. */
  function BodyText(f: Fetched): string
    requires f.Received?
  {
    f.body.GetOr("")
  }

  /** All but the first element, as `slice(1)` does (empty for an empty list). */
  function Rest<T>(s: seq<T>): (r: seq<T>)
    ensures |s| == 0 ==> r == []
    ensures |s| > 0 ==> r == s[1..]
  {
    if |s| == 0 then [] else s[1..]
  }

  /** The initial messages: one bot message per configured text, in order. */
  function InitialMessages(texts: seq<string>, env: Env): (ms: seq<Msg>)
    ensures |ms| == |texts|
    ensures forall i :: 0 <= i < |ms| ==> ms[i].text == JString(texts[i]) && ms[i].sender == Bot
  {
    seq(|texts|, i requires 0 <= i < |texts| => Msg(env.uuid(i), JString(texts[i]), Bot, env.clock(i)))
  }

  /** Constructing the hook: the first initial message becomes the welcome
      message (none when there are no initial messages), the rest seed the
      message list in order, all authored by the bot; there is no session
      yet and nothing is awaited. */
  function Init(cfg: Config, env: Env): (h: Hook)
    ensures h.cfg == cfg && h.initial == InitialMessages(cfg.initialMessages, env)
    ensures h.state.welcome.Some? ==> h.state.welcome.value.sender == Bot
    ensures |cfg.initialMessages| == 0 ==> h.state.welcome.None? && h.state.messages == []
    ensures |cfg.initialMessages| > 0 ==>
      && h.state.welcome == Some(h.initial[0])
      && h.state.welcome.value.text == JString(cfg.initialMessages[0])
      && h.state.messages == h.initial[1..]
    ensures |h.state.messages| == |Rest(cfg.initialMessages)|
    ensures forall i :: 0 <= i < |h.state.messages| ==>
      && h.state.messages[i].text == JString(cfg.initialMessages[i + 1])
      && h.state.messages[i].sender == Bot
    ensures h.state.currentSessionId.None? && !h.state.waiting
  {
    var initial := InitialMessages(cfg.initialMessages, env);
    Hook(cfg, initial,
      ChatState(if |initial| == 0 then None else Some(initial[0]), Rest(initial), None, false))
  }

  /** Adds the serialised metadata under the key `metadata` when truthy
      metadata is configured. */
  function WithMetadata(params: Entries, cfg: Config, codec: Codec): Entries {
    if cfg.metadata.Some? && Truthy(cfg.metadata.value)
    then Assign(params, "metadata", codec.stringify(cfg.metadata.value))
    else params
  }

  /** The parameters of the history request. */
  function LoadParams(cfg: Config, session: string, codec: Codec): Entries {
    WithMetadata(Assign(Assign([], "action", "loadPreviousSession"), cfg.sessionKey, session), cfg, codec)
  }

  /** The history request: a query string for GET, a form posted otherwise. */
  function LoadRequest(cfg: Config, session: string, codec: Codec): Request {
    var params := LoadParams(cfg, session, codec);
    if cfg.webhook.httpMethod == Some(GET) then Request(GET, Headers(cfg), Query(params))
    else Request(POST, Headers(cfg), Form(FormOf(params, [])))
  }

  /** What `loadSession` resolves to or throws. */
  datatype LoadOutcome =
    | Disabled                 // resolves to `undefined`, nothing happens
    | Loaded(session: string)  // resolves to the session id
    | LoadFailed               // the request or the mapping threw

  datatype LoadStep = LoadStep(hook: Hook, store: Store, request: Option<Request>, outcome: LoadOutcome)

  /** The session id `loadSession` uses: the stored one when it is a
      non-empty string, a fresh one otherwise. */
  function SessionFor(store: Store, env: Env): (session: string)
    ensures store.Some? && store.value != "" ==> session == store.value
    ensures store.None? || store.value == "" ==> session == env.uuid(0)
    ensures session != ""
  {
    if store.Some? && store.value != "" then store.value else env.uuid(0)
  }

  /** `loadSession`. When enabled, it gets or creates the session id,
      records it as current before any request, posts the history request
      and replaces the message list with the mapped history. */
  function LoadSession(h: Hook, store: Store, env: Env, reply: Fetched, codec: Codec): (r: LoadStep)
    ensures !h.cfg.loadPrevious ==> r == LoadStep(h, store, None, Disabled)
    ensures h.cfg.loadPrevious ==>
      var session := SessionFor(store, env);
      && r.request == Some(LoadRequest(h.cfg, session, codec))
      && r.store == Some(session)
      && r.hook.state.currentSessionId == Some(session)
      && r.hook.cfg == h.cfg && r.hook.initial == h.initial
      && r.hook.state.welcome == h.state.welcome
      && r.hook.state.waiting == h.state.waiting
      && (r.outcome.Loaded? ==> r.outcome.session == session)
    ensures h.cfg.loadPrevious ==> !r.outcome.Disabled?
    ensures h.cfg.loadPrevious ==>
      (r.outcome.Loaded? <==> reply.Received? && HistoryFromBody(BodyText(reply), codec, env.clock).Success?)
    ensures r.outcome.Loaded? ==> r.hook.state.messages == HistoryFromBody(BodyText(reply), codec, env.clock).value
    ensures r.outcome.LoadFailed? ==> r.hook.state.messages == h.state.messages
  {
    if !h.cfg.loadPrevious then LoadStep(h, store, None, Disabled)
    else
      var session := SessionFor(store, env);
      var store' := if store.Some? && store.value != "" then store else Some(session);
      var started := h.(state := h.state.(currentSessionId := Some(session)));
      var request := LoadRequest(h.cfg, session, codec);
      match reply
      case Unreachable => LoadStep(started, store', Some(request), LoadFailed)
      case Received(_) =>
        match HistoryFromBody(BodyText(reply), codec, env.clock)
        case Failure(_) => LoadStep(started, store', Some(request), LoadFailed)
        case Success(ms) =>
          var loaded := started.(state := started.state.(messages := ms));
          var confirmed :=
            if |ms| > 0 then loaded.(state := loaded.state.(currentSessionId := Some(session))) else loaded;
          LoadStep(confirmed, store', Some(request), Loaded(session))
  }

  /** `startSession`: a fresh id becomes both the current and the stored
      session id, the message list is reset to the initial messages after
      the welcome message, and nothing else changes. */
  function StartSession(h: Hook, env: Env): (r: (Hook, Store))
    ensures r.1 == Some(env.uuid(0)) && r.0.state.currentSessionId == r.1
    ensures r.0.state.messages == Rest(h.initial)
    ensures r.0.state.welcome == h.state.welcome && r.0.state.waiting == h.state.waiting
    ensures r.0.cfg == h.cfg && r.0.initial == h.initial
  {
    var newId: string := env.uuid(0);
    (h.(state := h.state.(currentSessionId := Some(newId), messages := Rest(h.initial))), Some(newId))
  }

  /** The parameters of the send request. */
  function SendParams(cfg: Config, state: ChatState, text: string, codec: Codec): Entries {
    var base := Assign([], "action", "sendMessage");
    var withSession := Assign(base, cfg.sessionKey, state.currentSessionId.GetOr(""));
    WithMetadata(Assign(withSession, cfg.inputKey, text), cfg, codec)
  }

  /** The send request: always a form, with the configured method (POST
      when none is configured) and the parameters followed by the files. */
  function SendRequest(cfg: Config, state: ChatState, text: string, files: seq<File>, codec: Codec): Request {
    Request(cfg.webhook.httpMethod.GetOr(POST), Headers(cfg), Form(FormOf(SendParams(cfg, state, text, codec), files)))
  }

  /** The synchronous start of `sendMessage`: the user's message is
      appended and the waiting flag raised, before any request is made. */
  function SendBegin(s: ChatState, text: string, env: Env): (r: ChatState)
    ensures r.messages == s.messages + [Msg(env.uuid(0), JString(text), User, env.clock(0))]
    ensures r.waiting
    ensures r.welcome == s.welcome && r.currentSessionId == s.currentSessionId
  {
    s.(messages := s.messages + [Msg(env.uuid(0), JString(text), User, env.clock(0))], waiting := true)
  }

  datatype SendOutcome = Sent | SendFailed

  datatype SendStep = SendStep(request: Request, hook: Hook, outcome: SendOutcome)

  /** `sendMessage`. On normal completion exactly one bot message carrying
      the selected reply follows the user's message and the waiting flag is
      lowered; when the request or the reply handling throws, the user's
      message stays and the flag stays raised. */
  function SendMessage(h: Hook, text: string, files: seq<File>, env: Env, reply: Fetched, codec: Codec): (r: SendStep)
    ensures r.request == SendRequest(h.cfg, SendBegin(h.state, text, env), text, files, codec)
    ensures r.hook.cfg == h.cfg && r.hook.initial == h.initial
    ensures r.hook.state.welcome == h.state.welcome
    ensures r.hook.state.currentSessionId == h.state.currentSessionId
    ensures r.outcome.Sent? <==> reply.Received? && SelectReply(BodyText(reply), codec).Success?
    ensures r.outcome.Sent? ==>
      && |r.hook.state.messages| == |h.state.messages| + 2
      && r.hook.state.messages[..|h.state.messages|] == h.state.messages
      && r.hook.state.messages[|h.state.messages|] == Msg(env.uuid(0), JString(text), User, env.clock(0))
      && r.hook.state.messages[|h.state.messages| + 1]
         == Msg(env.uuid(1), SelectReply(BodyText(reply), codec).value, Bot, env.clock(1))
      && !r.hook.state.waiting
    ensures r.outcome.SendFailed? ==> r.hook.state == SendBegin(h.state, text, env)
  {
    var pending := SendBegin(h.state, text, env);
    var request := SendRequest(h.cfg, pending, text, files, codec);
    match reply
    case Unreachable => SendStep(request, h.(state := pending), SendFailed)
    case Received(_) =>
      match SelectReply(BodyText(reply), codec)
      case Failure(_) => SendStep(request, h.(state := pending), SendFailed)
      case Success(content) =>
        var bot := Msg(env.uuid(1), content, Bot, env.clock(1));
        SendStep(request, h.(state := pending.(messages := pending.messages + [bot], waiting := false)), Sent)
  }
}
