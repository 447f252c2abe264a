/** The history mapper of `loadSession`: from the body of the webhook's
    reply to the list of messages that replaces the chat. */
module History {
  import opened Wrappers
  import opened Json
  import opened Text
  import opened Messages

  /** The marker that identifies a human-authored history entry. */
  const HumanMarker: string := "HumanMessage"

  /** The text of a non-null entry: the `content` of its `kwargs` member when
      that is truthy, and the empty string otherwise. */
  function EntryText(h: Json): Json {
    var kwargs := Get(h, "kwargs");
    if Nullish(kwargs) then JString("")
    else
      var content := Get(kwargs.value, "content");
      if content.Some? && Truthy(content.value) then content.value else JString("")
  }

  /** The author of a non-null entry: the user when its `id` contains the
      human marker, the bot otherwise (also when there is no id). A string
      id is searched for the substring; an array id uses
      `Array.prototype.includes`, which looks for an equal element; a
      number, boolean or object id has no `includes` and the call throws. */
  function EntrySender(h: Json): Result<Sender, TypeError> {
    var id := Get(h, "id");
    if Nullish(id) then Success(Bot)
    else match id.value
      case JString(s) => Success(if Includes(s, HumanMarker) then User else Bot)
      case JArray(xs) => Success(if JString(HumanMarker) in xs then User else Bot)
      case _ => Failure(NotAFunction("includes"))
  }

  /** The message built for entry `h` at position `i` of `data`. */
  function MapEntry(h: Json, i: nat, stamp: string): Result<Msg, TypeError> {
    if h.JNull? then Failure(NullReceiver("kwargs"))
    else match EntrySender(h)
      case Failure(e) => Failure(e)
      case Success(sender) => Success(Msg(NatToString(i), EntryText(h), sender, stamp))
  }

  /** The history entries mapped from position `start` on: every entry is mapped in
      order, and the first entry that throws makes the whole map throw. */
  function MapFrom(data: seq<Json>, start: nat, clock: nat -> string): (r: Result<seq<Msg>, TypeError>)
    ensures r.Success? <==>
      forall k :: 0 <= k < |data| ==> MapEntry(data[k], start + k, clock(start + k)).Success?
    ensures r.Success? ==> |r.value| == |data|
    ensures r.Success? ==>
      forall k :: 0 <= k < |data| ==> r.value[k] == MapEntry(data[k], start + k, clock(start + k)).value
    decreases |data|
  {
    if |data| == 0 then Success([])
    else match MapEntry(data[0], start, clock(start))
      case Failure(e) => Failure(e)
      case Success(m) =>
        match MapFrom(data[1..], start + 1, clock)
        case Failure(e) => Failure(e)
        case Success(ms) => Success([m] + ms)
  }

  /** The whole history mapped from position 0: the i-th message takes the i-th clock
      reading as its timestamp. */
  function MapHistory(data: seq<Json>, clock: nat -> string): Result<seq<Msg>, TypeError> {
    MapFrom(data, 0, clock)
  }

  /** The decoded reply body: the empty object for an empty body or for one
      that is not JSON. */
  function DecodeHistory(raw: string, codec: Codec): Json {
    if raw == "" then EmptyObject
    else codec.parse(raw).GetOr(EmptyObject)
  }

  /** The `data` member of the decoded body, the empty list when it is missing
      or `null`. Only an array can be mapped; any other `data` throws, and so
      does reading `data` of a `null` body. */
  function HistoryData(result: Json): Result<seq<Json>, TypeError> {
    if result.JNull? then Failure(NullReceiver("data"))
    else
      var data := Get(result, "data");
      if Nullish(data) then Success([])
      else if data.value.JArray? then Success(data.value.items)
      else Failure(NotAFunction("map"))
  }

  /** The messages a history reply body yields: decode, take `data`, map it.
      An empty body, a body that is not JSON, or a decoded value with no
      `data` (or a `null` one) all yield the empty history. */
  function HistoryFromBody(raw: string, codec: Codec, clock: nat -> string): (r: Result<seq<Msg>, TypeError>)
    ensures raw == "" ==> r == Success([])
    ensures raw != "" && codec.parse(raw).None? ==> r == Success([])
    ensures (raw != "" && codec.parse(raw).Some? && !codec.parse(raw).value.JNull?
             && Nullish(Get(codec.parse(raw).value, "data"))) ==> r == Success([])
    ensures raw != "" && codec.parse(raw) == Some(JNull) ==> r.Failure?
    ensures var d := Get(DecodeHistory(raw, codec), "data");
      d.Some? && d.value.JArray? ==> r == MapHistory(d.value.items, clock)
  {
    match HistoryData(DecodeHistory(raw, codec))
    case Failure(e) => Failure(e)
    case Success(data) => MapHistory(data, clock)
  }

  /** The reference meaning of "the entry's id contains HumanMessage": a
      string id in which the marker occurs at some position, or an array id
      holding the marker as an element. */
  ghost predicate MarksHuman(h: Json) {
    var id := Get(h, "id");
    && id.Some?
    && ((id.value.JString? && exists i :: OccursAt(id.value.s, HumanMarker, i))
        || (id.value.JArray? && JString(HumanMarker) in id.value.items))
  }

  /** A history entry the mapper cannot take: `null`, or one whose `id`
      is a number, boolean or object. */
  ghost predicate Unmappable(h: Json) {
    || h.JNull?
    || (var id := Get(h, "id"); id.Some? && (id.value.JBool? || id.value.JNumber? || id.value.JObject?))
  }

  /** The text of a history message is the entry's `kwargs.content` when
      `kwargs` is an object holding a truthy `content`, and `''` otherwise. */
  ghost predicate TextFromEntry(h: Json, text: Json) {
    var kwargs := Get(h, "kwargs");
    if kwargs.Some? && kwargs.value.JObject? && "content" in kwargs.value.fields
       && Truthy(kwargs.value.fields["content"])
    then text == kwargs.value.fields["content"]
    else text == JString("")
  }

  /** One entry: mapping it fails exactly when it is unmappable; otherwise
      the message's id reads back as its position, its text comes from
      `kwargs.content`, and its sender is the user exactly when the entry is
      marked human. */
  lemma EntryFacts(h: Json, i: nat, stamp: string)
    ensures MapEntry(h, i, stamp).Success? <==> !Unmappable(h)
    ensures MapEntry(h, i, stamp).Success? ==>
      var m := MapEntry(h, i, stamp).value;
      && m.id == NatToString(i)
      && ParseDecimal(m.id) == i
      && TextFromEntry(h, m.text)
      && (m.sender == User <==> MarksHuman(h))
      && m.createdAt == stamp
  {
    ParseNatToString(i);
    var id := Get(h, "id");
    if id.Some? && id.value.JString? {
      IncludesIff(id.value.s, HumanMarker);
    }
  }

  /** A successful mapping keeps the length and order of `data`, gives the
      k-th message the id `String(k)` and the k-th clock reading, and takes
      text and sender from the k-th entry. The mapping fails exactly when
      some entry is unmappable. */
  lemma HistoryEntries(data: seq<Json>, clock: nat -> string)
    ensures MapHistory(data, clock).Success? <==> forall k :: 0 <= k < |data| ==> !Unmappable(data[k])
    ensures MapHistory(data, clock).Success? ==>
      var ms := MapHistory(data, clock).value;
      && |ms| == |data|
      && forall k :: 0 <= k < |data| ==>
        && ms[k].id == NatToString(k)
        && ParseDecimal(ms[k].id) == k
        && TextFromEntry(data[k], ms[k].text)
        && (ms[k].sender == User <==> MarksHuman(data[k]))
        && ms[k].createdAt == clock(k)
  {
    forall k | 0 <= k < |data|
      ensures MapEntry(data[k], k, clock(k)).Success? <==> !Unmappable(data[k])
      ensures MapEntry(data[k], k, clock(k)).Success? ==>
        var m := MapEntry(data[k], k, clock(k)).value;
        && m.id == NatToString(k)
        && ParseDecimal(m.id) == k
        && TextFromEntry(data[k], m.text)
        && (m.sender == User <==> MarksHuman(data[k]))
        && m.createdAt == clock(k)
    {
      EntryFacts(data[k], k, clock(k));
    }
  }

  /** Positional ids are pairwise distinct within one mapped history. */
  lemma HistoryIdsDistinct(data: seq<Json>, clock: nat -> string)
    requires MapHistory(data, clock).Success?
    ensures var ms := MapHistory(data, clock).value;
      forall j, k :: 0 <= j < k < |ms| ==> ms[j].id != ms[k].id
  {
    var ms := MapHistory(data, clock).value;
    forall j, k | 0 <= j < k < |ms|
      ensures ms[j].id != ms[k].id
    {
      NatToStringInjective(j, k);
    }
  }

  /** The body fails to map exactly when it decodes to `null`, its `data`
      is present but not an array, or one of its entries is unmappable. */
  lemma HistoryFailureCases(raw: string, codec: Codec, clock: nat -> string)
    ensures var result := DecodeHistory(raw, codec);
      var data := Get(result, "data");
      HistoryFromBody(raw, codec, clock).Failure? <==>
        || result.JNull?
        || (!Nullish(data) && !data.value.JArray?)
        || (!Nullish(data) && data.value.JArray?
            && exists k :: 0 <= k < |data.value.items| && Unmappable(data.value.items[k]))
  {
    var result := DecodeHistory(raw, codec);
    var data := Get(result, "data");
    if !result.JNull? && !Nullish(data) && data.value.JArray? {
      HistoryEntries(data.value.items, clock);
    }
  }
}
