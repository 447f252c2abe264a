/** The message record the hook keeps in its list, and the environment an
    operation draws fresh identifiers and timestamps from. */
module Messages {
  import opened Json

  datatype Sender = User | Bot

  /** One chat message. Its text is whatever JavaScript value the hook
      stored: the user's string for user messages, but any JSON value for
      history entries and replies (the source does not coerce them). */
  datatype Msg = Msg(id: string, text: Json, sender: Sender, createdAt: string)

  /** A `uuidv4()` result: 36 characters, so never the empty string. Only
      its non-emptiness matters to the hook (`if (!session)`). */
  type Uuid = s: string | |s| > 0 witness "0"

  /** The nondeterminism an operation observes, in call order: `uuid(k)` is
      the k-th value `uuidv4()` returns and `clock(k)` the k-th value of
      `new Date().toISOString()`. */
  datatype Env = Env(uuid: nat -> Uuid, clock: nat -> string)

  /** The thrown errors a JSON reply can provoke in the hook. */
  datatype TypeError =
    | NullReceiver(property: string)   // reading a property of `null`
    | NotAFunction(callee: string)     // calling `includes`/`map` on a value without it
}
