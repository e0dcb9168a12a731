/**
 * The inbound-reply rule of the voice session: each message is parsed as JSON
 * and, when `data.reply && data.reply.text` is truthy, that `text` value is
 * handed to the speech synthesiser unmodified.
 *
 * Parsing itself is not modelled: the handler receives the outcome of
 * `JSON.parse`, with `None` standing for a parse that threw.
 */
module Reply {

  import opened Optional

  /** A value `JSON.parse` can return. */
  datatype Json =
    | JNull
    | JBool(b: bool)
    | JNumber(n: real)
    | JString(s: string)
    | JArray(items: seq<Json>)
    | JObject(fields: map<string, Json>)

  /** JavaScript truthiness (ToBoolean) of a parsed JSON value. */
  predicate Truthy(v: Json) {
    match v
    case JNull => false
    case JBool(b) => b
    case JNumber(n) => n != 0.0
    case JString(s) => s != ""
    case _ => true
  }

  /** The outcome of a property read `v.key`. */
  datatype Read = Value(v: Json) | Undefined | TypeError

  /**
   * Property read on a parsed value, for the two keys the handler reads
   * ("reply" and "text"): only an object can hold them, and reading any
   * property of `null` throws.
   */
  function Get(v: Json, key: string): (r: Read) {
    match v
    case JNull => TypeError
    case JObject(fields) => if key in fields then Value(fields[key]) else Undefined
    case _ => Undefined
  }

  /**
   * The reply shape in structural terms: `data` is an object whose `reply`
   * member is an object whose `text` member is `text`, and `text` is truthy.
   */
  ghost predicate CarriesReply(data: Option<Json>, text: Json) {
    && data.Some?
    && data.value.JObject?
    && "reply" in data.value.fields
    && var reply := data.value.fields["reply"];
    && reply.JObject?
    && "text" in reply.fields
    && reply.fields["text"] == text
    && Truthy(text)
  }

  /**
   * The body of the message handler: the value spoken, if any.  A parse
   * failure, a `null` document and a falsy `reply` or `text` all speak
   * nothing.
   */
  function SpokenText(data: Option<Json>): (r: Option<Json>)
    ensures r.Some? ==> CarriesReply(data, r.value)
    ensures (exists text :: CarriesReply(data, text)) ==> r.Some?
  {
    match data
    case None => None
    case Some(doc) =>
      match Get(doc, "reply")
      case Value(reply) =>
        if !Truthy(reply) then None
        else (
          match Get(reply, "text")
          case Value(text) => if Truthy(text) then Some(text) else None
          case _ => None)
      case _ => None
  }

  /** The document `{"reply": {"text": t}}`. */
  function ReplyDocument(t: string): (doc: Json) {
    JObject(map["reply" := JObject(map["text" := JString(t)])])
  }

  /**
   * A string reply is spoken verbatim when non-empty; the empty string speaks
   * nothing.
   */
  lemma SpeaksStringReply(t: string)
    ensures t != "" ==> SpokenText(Some(ReplyDocument(t))) == Some(JString(t))
    ensures t == "" ==> SpokenText(Some(ReplyDocument(t))) == None
  {
    var doc := ReplyDocument(t);
    assert Get(doc, "reply") == Value(JObject(map["text" := JString(t)]));
  }

  /** A parse failure and every document that is not an object speak nothing. */
  lemma NonReplySpeaksNothing(data: Option<Json>)
    requires data.None? || !data.value.JObject?
    ensures SpokenText(data) == None
  {
  }

}
