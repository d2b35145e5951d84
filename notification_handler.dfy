/** The notification Lambda (notification-service/src/handler.js): checks
    that the event carries every required field, renders the message text,
    normalises addresses for the WhatsApp channel and hands the message to
    the SMS/WhatsApp gateway (Twilio), whose reply is an input here. */
module NotificationHandler {
  import opened Wrappers
  import opened JsText

  /** The event object the Lambda receives, property name to value. */
  type Event = map<string, JsValue>

  /** `p[k]`, `undefined` when the property is absent. */
  function Get(p: Event, k: string): JsValue
  {
    if k in p then p[k] else Undefined
  }

  /** The properties that must be truthy, in the order they are reported. */
  const Required: seq<string> := ["messageId", "channel", "to", "plantName", "action", "dueAt"]

  const WhatsappPrefix := "whatsapp:"

  /** `normalize(channel, num)`: on the WhatsApp channel an address gets the
      `whatsapp:` scheme unless it already has it; other channels use the
      number as given. */
  function Normalize(channel: JsValue, num: string): (r: string)
    ensures channel == Str("whatsapp") ==> WhatsappPrefix <= r
    ensures r != num <==> channel == Str("whatsapp") && !(WhatsappPrefix <= num)
    ensures r == num || r == WhatsappPrefix + num
  {
    if channel == Str("whatsapp") then
      (if WhatsappPrefix <= num then num else WhatsappPrefix + num)
    else num
  }

  /** Normalising an already normalised address changes nothing. */
  lemma NormalizeIdempotent(channel: JsValue, num: string)
    ensures Normalize(channel, Normalize(channel, num)) == Normalize(channel, num)
  {
    if channel == Str("whatsapp") && !(WhatsappPrefix <= num) {
      assert WhatsappPrefix <= WhatsappPrefix + num;
    }
  }

  /** `a` is `b` with some elements left out, order kept. */
  predicate Subsequence(a: seq<string>, b: seq<string>)
  {
    if a == [] then true
    else if b == [] then false
    else (a[0] == b[0] && Subsequence(a[1..], b[1..])) || Subsequence(a, b[1..])
  }

  /** `keys.filter(k => !p?.[k])`: the keys whose values are falsy, in the
      order of `keys`. */
  function MissingFrom(keys: seq<string>, p: Event): (m: seq<string>)
    ensures forall k :: k in m <==> k in keys && !Truthy(Get(p, k))
    ensures Subsequence(m, keys)
  {
    if keys == [] then []
    else if !Truthy(Get(p, keys[0])) then [keys[0]] + MissingFrom(keys[1..], p)
    else MissingFrom(keys[1..], p)
  }

  function Missing(p: Event): seq<string>
  {
    MissingFrom(Required, p)
  }

  /** An event whose six required properties are all truthy has nothing
      missing. */
  lemma NothingMissing(p: Event)
    requires Truthy(Get(p, "messageId")) && Truthy(Get(p, "channel")) && Truthy(Get(p, "to"))
    requires Truthy(Get(p, "plantName")) && Truthy(Get(p, "action")) && Truthy(Get(p, "dueAt"))
    ensures Missing(p) == []
  {
    assert forall k :: k in Required ==> Truthy(Get(p, k));
    var m := Missing(p);
    // An element of `m` would be a required key with a falsy value.
    assert forall i :: 0 <= i < |m| ==> m[i] !in m;
  }

  /** `formatBody(p)` once `toLocaleString` has rendered the due time
      (`when`): the Lambda's clock and time-zone database are not
      modelled. */
  function FormatBody(p: Event, when: string): string
  {
    "\U{1F33F} PlantPal Reminder \U{1F33F}\n"
    + "It's time to " + Text(Get(p, "action")) + " your " + Text(Get(p, "plantName")) + "!\n"
    + "\U{1F5D3}\U{FE0F} " + when
    + (if Truthy(Get(p, "notes")) then "\n\U{1F4AC} Note: " + Text(Get(p, "notes")) else "")
  }

  /** The note line is appended exactly when `notes` is truthy: the body is
      the body without notes, followed by the note line or by nothing. */
  lemma NoteLineIffTruthy(p: Event, when: string)
    ensures Truthy(Get(p, "notes")) ==>
      FormatBody(p, when) == FormatBody(p - {"notes"}, when) + "\n\U{1F4AC} Note: " + Text(Get(p, "notes"))
    ensures !Truthy(Get(p, "notes")) ==> FormatBody(p, when) == FormatBody(p - {"notes"}, when)
  {
    var q := p - {"notes"};
    assert Get(q, "action") == Get(p, "action");
    assert Get(q, "plantName") == Get(p, "plantName");
    assert Get(q, "notes") == Undefined;
  }

  /** The TypeError V8 raises for `num.startsWith(..)` when `num` is not
      a string: reading a property of `undefined` or `null` fails, and any
      other value lacks the method. */
  function StartsWithError(v: JsValue): string
  {
    match v
    case Undefined => "TypeError: Cannot read properties of undefined (reading 'startsWith')"
    case Null => "TypeError: Cannot read properties of null (reading 'startsWith')"
    case _ => "TypeError: num.startsWith is not a function"
  }

  /** `normalize(channel, v)` on any value: `startsWith` exists only on
      strings, so a non-string on the WhatsApp channel throws a TypeError;
      other channels pass the value through untouched. */
  function NormalizeValue(channel: JsValue, v: JsValue): (r: Result<JsValue, string>)
    ensures r.Err? <==> channel == Str("whatsapp") && !v.Str?
    ensures r.Err? && v.Undefined? ==> r.error == "TypeError: Cannot read properties of undefined (reading 'startsWith')"
    ensures r.Err? && v.Null? ==> r.error == "TypeError: Cannot read properties of null (reading 'startsWith')"
    ensures r.Err? && !v.Undefined? && !v.Null? ==> r.error == "TypeError: num.startsWith is not a function"
    ensures r.Ok? && v.Str? ==> r.value == Str(Normalize(channel, v.s))
    ensures r.Ok? && !v.Str? ==> r.value == v
  {
    if v.Str? then Ok(Str(Normalize(channel, v.s)))
    else if channel == Str("whatsapp") then Err(StartsWithError(v))
    else Ok(v)
  }

  /** What is handed to the gateway. */
  datatype GatewayRequest = GatewayRequest(from: JsValue, to: JsValue, body: string)

  /** The TWILIO_FROM setting as the handler reads it: a string, or
      `undefined` when the variable is not set. */
  function Setting(v: Option<string>): (r: JsValue)
    ensures r.Str? <==> v.Some?
    ensures v.Some? ==> r.s == v.value
  {
    if v.Some? then Str(v.value) else Undefined
  }

  /** The gateway's reply to `messages.create`. */
  datatype GatewayReply = Created(sid: string) | Rejected(message: string)

  /** The object the Lambda resolves with (`ok` is `Sent?`), or the error
      it rejects with: a TypeError when, on the WhatsApp channel, the sender
      setting is unset or `to` is not a string, or the RangeError of an
      unknown time zone. */
  datatype HandlerResult =
    | MissingFields(error: string, messageId: JsValue)
    | Sent(messageId: JsValue, sid: string, to: JsValue, sentAt: string)
    | SendFailed(messageId: JsValue, error: string)
    | Threw(error: string)

  /** `handler(event)`. `from` is the TWILIO_FROM setting (`None` when it
      is not set); `when` is the due time as `toLocaleString` renders it,
      or the RangeError it throws for a `tz` that is not a known time zone;
      `reply` is what the gateway answers if asked, and `nowIso` the clock
      at the moment of sending. The sender is normalised, then the
      destination, then the body is formatted, all outside the `try`, so an
      error from any of them rejects the Lambda before the send. Returns
      the request made to the gateway, if any, and the Lambda's result. */
  function Handle(p: Event, from: Option<string>, when: Result<string, string>, reply: GatewayReply, nowIso: string)
    : (r: (Option<GatewayRequest>, HandlerResult))
    ensures Missing(p) != [] <==> r.1.MissingFields?
    ensures r.1.MissingFields? ==>
      && r.0 == None
      && r.1.error == "Missing fields: " + Join(Missing(p), ", ")
      && r.1.messageId == OrDefault(Get(p, "messageId"), Null)
    ensures r.1.Threw? <==>
      && Missing(p) == []
      && ((Get(p, "channel") == Str("whatsapp") && (from.None? || !Get(p, "to").Str?)) || when.Err?)
    ensures Missing(p) == [] && Get(p, "channel") == Str("whatsapp") && from.None? ==>
      r == (None, Threw("TypeError: Cannot read properties of undefined (reading 'startsWith')"))
    ensures (&& Missing(p) == [] && when.Err?
             && NormalizeValue(Get(p, "channel"), Setting(from)).Ok?
             && NormalizeValue(Get(p, "channel"), Get(p, "to")).Ok?) ==>
      r == (None, Threw(when.error))
    ensures r.0.Some? <==> r.1.Sent? || r.1.SendFailed?
    ensures r.1.Sent? ==>
      && r.1.to == Get(p, "to") && r.1.messageId == Get(p, "messageId")
      && reply == Created(r.1.sid) && r.1.sentAt == nowIso
    ensures r.1.SendFailed? ==> reply == Rejected(r.1.error) && r.1.messageId == Get(p, "messageId")
    ensures r.0.Some? ==>
      && NormalizeValue(Get(p, "channel"), Get(p, "to")) == Ok(r.0.value.to)
      && NormalizeValue(Get(p, "channel"), Setting(from)) == Ok(r.0.value.from)
      && when.Ok? && r.0.value.body == FormatBody(p, when.value)
  {
    var missing := Missing(p);
    if missing != [] then
      (None, MissingFields("Missing fields: " + Join(missing, ", "), OrDefault(Get(p, "messageId"), Null)))
    else
      var channel := Get(p, "channel");
      match NormalizeValue(channel, Setting(from))
      case Err(e) => (None, Threw(e))
      case Ok(sender) =>
        match NormalizeValue(channel, Get(p, "to"))
        case Err(e) => (None, Threw(e))
        case Ok(to) =>
          match when
          case Err(e) => (None, Threw(e))
          case Ok(w) =>
            var request := GatewayRequest(sender, to, FormatBody(p, w));
            match reply
            case Created(sid) => (Some(request), Sent(Get(p, "messageId"), sid, Get(p, "to"), nowIso))
            case Rejected(msg) => (Some(request), SendFailed(Get(p, "messageId"), msg))
  }
}
