/** The scheduler's activities (scheduler-service/src/activities.ts): the
    adapters to the reminder service, the user service and the notification
    Lambda. The remote replies are inputs; what the model states is what
    each activity makes of them. */
module Activities {
  import opened Wrappers
  import opened JsText
  import NotificationHandler

  /** A due reminder as the reminder service lists it. `name` is typed as a
      string but may be null in the rows, hence an option. */
  datatype ReminderRow = ReminderRow(
    id: string,
    userId: string,
    name: Option<string>,
    notes: Option<string>,
    dueAt: string,
    isProxy: bool,
    proxy: Option<string>)

  /** `reminder.name ?? "Reminder"`, the title both the workflow and the
      cron path pass to `sendNotification`: the fallback applies only to a
      missing name, and an empty name is passed on as it is. */
  function ReminderTitle(reminder: ReminderRow): (t: string)
    ensures reminder.name.Some? ==> t == reminder.name.value
    ensures reminder.name.None? ==> t == "Reminder"
  {
    match reminder.name
    case Some(n) => n
    case None => "Reminder"
  }

  /** Why an activity call threw. */
  datatype ActivityError =
    | Transport(message: string)
    | LambdaInvokeFailed(message: string)
    | TimedOut
    | TypeError(message: string)

  /** What `to.trim()` throws when the destination is undefined. */
  const TrimOfUndefined := "Cannot read properties of undefined (reading 'trim')"

  // ---------------------------------------------------------------------
  // listDueReminders

  /** The `reminders` property of the reply body. */
  datatype RemindersField = NoReminders | ReminderArray(rows: seq<ReminderRow>) | NotAnArray

  /** The reply body: absent/falsy, or an object. */
  datatype ResponseBody = NoData | Data(reminders: RemindersField)

  /** An HTTP reply; any status is accepted (`validateStatus: () => true`). */
  datatype DueReply = DueReply(status: int, body: ResponseBody)

  /** `listDueReminders(windowSec)` given what the GET request produced:
      the `reminders` array unchanged when the body has one, an empty list
      for any other body whatever the status, and the transport error
      rethrown. */
  function ListDueReminders(reply: Result<DueReply, ActivityError>): (r: Result<seq<ReminderRow>, ActivityError>)
    ensures reply.Err? <==> r.Err?
    ensures reply.Err? ==> r.error == reply.error
    ensures reply.Ok? && reply.value.body.Data? && reply.value.body.reminders.ReminderArray? ==>
      r == Ok(reply.value.body.reminders.rows)
    ensures r.Ok? && r.value != [] ==> reply.value.body == Data(ReminderArray(r.value))
  {
    match reply
    case Err(e) => Err(e)
    case Ok(DueReply(_, body)) =>
      if body.Data? && body.reminders.ReminderArray? then Ok(body.reminders.rows) else Ok([])
  }

  /** The HTTP status never changes what `listDueReminders` returns. */
  lemma ListDueIgnoresStatus(s1: int, s2: int, body: ResponseBody)
    ensures ListDueReminders(Ok(DueReply(s1, body))) == ListDueReminders(Ok(DueReply(s2, body)))
  {
  }

  // ---------------------------------------------------------------------
  // resolveTargetNumber

  /** The user service's answer to `GET /users/:id`: the user's
      `phone_number`, `None` when the body has none (the cast to `string`
      checks nothing, so `undefined` is passed on), or the request's error. */
  datatype UserLookup = UserFound(phoneNumber: Option<string>) | UserLookupFailed(message: string)

  function LookupResult(lookup: UserLookup): Result<Option<string>, ActivityError>
  {
    match lookup
    case UserFound(phone) => Ok(phone)
    case UserLookupFailed(m) => Err(Transport(m))
  }

  /** True when `resolveTargetNumber` answers from the proxy number alone. */
  predicate UsesProxy(isProxy: bool, proxy: Option<string>)
  {
    isProxy && proxy.Some? && HasNonSpace(proxy.value)
  }

  /** `resolveTargetNumber(userID, isProxy, proxy)`: a proxy reminder with a
      proxy that has a non-space character yields that proxy, untrimmed,
      whatever the user service would say; every other case (including a
      null or blank proxy) yields the user's `phone_number`, which may be
      missing. */
  function ResolveTargetNumber(userId: string, isProxy: bool, proxy: Option<string>, lookup: UserLookup)
    : (r: Result<Option<string>, ActivityError>)
    ensures UsesProxy(isProxy, proxy) ==> r == Ok(Some(proxy.value))
    ensures !UsesProxy(isProxy, proxy) ==> r == LookupResult(lookup)
    ensures r == Ok(None) <==> !UsesProxy(isProxy, proxy) && lookup == UserFound(None)
  {
    if isProxy && proxy.Some? && (TrimEmptyIff(proxy.value); Trim(proxy.value) != "") then Ok(Some(proxy.value))
    else LookupResult(lookup)
  }

  /** The proxy short-circuit makes no use of the lookup: any two user
      service answers give the same target. */
  lemma ProxyNeedsNoLookup(userId: string, proxy: string, l1: UserLookup, l2: UserLookup)
    requires HasNonSpace(proxy)
    ensures ResolveTargetNumber(userId, true, Some(proxy), l1) == ResolveTargetNumber(userId, true, Some(proxy), l2)
  {
  }

  // ---------------------------------------------------------------------
  // sendNotification

  /** The destination in the form the gateway expects: trimmed, and with a
      `+` or `+65` (Singapore) country prefix added when it has none. */
  function E164Destination(to: string): string
  {
    var t := Trim(to);
    if "+" <= t then t else if "65" <= t then "+" + t else "+65" + t
  }

  /** Every formatted destination starts with `+` and has no surrounding
      whitespace. */
  lemma {:induction false} E164Shape(to: string)
    ensures "+" <= E164Destination(to)
    ensures NoOuterSpace(E164Destination(to))
  {
    TrimmedHasNoOuterSpace(to);
    var t := Trim(to);
    if !("+" <= t) {
      PrefixedShape(if "65" <= t then "+" else "+65", t);
    }
  }

  /** A prefix starting with `+` and ending in a digit, put before a
      string with no outer space, gives a string starting with `+` with no
      outer space. */
  lemma PrefixedShape(p: string, t: string)
    requires p == "+" || p == "+65"
    requires NoOuterSpace(t)
    ensures "+" <= p + t && NoOuterSpace(p + t)
  {
    var r := p + t;
    assert r[0] == '+';
    if t != [] {
      assert r[|r| - 1] == t[|t| - 1];
    }
  }

  /** Formatting an already formatted destination returns it unchanged. */
  lemma E164Idempotent(to: string)
    ensures E164Destination(E164Destination(to)) == E164Destination(to)
  {
    E164Shape(to);
    TrimNoOuterSpace(E164Destination(to));
  }

  /** The local number of the Singapore scenario gains `+65`. */
  lemma E164LocalExample()
    ensures E164Destination("91234567") == "+6591234567"
  {
    TrimNoOuterSpace("91234567");
    assert !("+" <= "91234567") && !("65" <= "91234567");
  }

  /** Trimming a padded number keeps the digits. */
  lemma TrimPaddedExample()
    ensures Trim(" 6598765432 ") == "6598765432"
  {
    var s := " 6598765432 ";
    assert s[1..] == "6598765432 " && !IsSpace('6');
    assert TrimStart(s) == "6598765432 ";
    var u := "6598765432 ";
    assert u[..|u| - 1] == "6598765432" && !IsSpace('2');
    assert TrimEnd(u) == "6598765432";
  }

  /** A padded number that already carries the country code gains only `+`. */
  lemma E164CountryCodeExample()
    ensures E164Destination(" 6598765432 ") == "+6598765432"
  {
    TrimPaddedExample();
    assert "65" <= "6598765432";
  }

  /** The event sent to the notification Lambda. */
  datatype Payload = Payload(
    messageId: string,
    channel: string,
    to: string,
    plantName: string,
    action: string,
    dueAt: string,
    tz: string,
    notes: string)

  /** The payload `sendNotification(to, title, body)` builds at clock
      `nowMs` (its ISO rendering being `nowIso`). */
  function PayloadFor(to: string, title: string, body: Option<string>, nowMs: nat, nowIso: string): (p: Payload)
    ensures p.to == E164Destination(to)
    ensures p.channel == "sms" && p.tz == "Asia/Singapore"
    ensures p.plantName != "" && p.action != "" && p.notes != ""
    ensures title != "" ==> p.plantName == title && p.action == title
    ensures title == "" ==> p.plantName == "Unnamed Reminder" && p.action == "Reminder"
    ensures body.Some? && body.value != "" ==> p.notes == body.value
    ensures body.None? || body.value == "" ==> p.notes == "No notes provided"
  {
    Payload(
      "rmdr_" + Decimal(nowMs),
      "sms",
      E164Destination(to),
      if title != "" then title else "Unnamed Reminder",
      if title != "" then title else "Reminder",
      nowIso,
      "Asia/Singapore",
      if body.Some? && body.value != "" then body.value else "No notes provided")
  }

  /** The payload as the Lambda sees it. */
  function AsEvent(p: Payload): NotificationHandler.Event
  {
    map[
      "messageId" := Str(p.messageId), "channel" := Str(p.channel), "to" := Str(p.to),
      "plantName" := Str(p.plantName), "action" := Str(p.action), "dueAt" := Str(p.dueAt),
      "tz" := Str(p.tz), "notes" := Str(p.notes)]
  }

  /** The six required properties of the event are the payload's fields. */
  lemma EventFields(p: Payload)
    ensures NotificationHandler.Get(AsEvent(p), "messageId") == Str(p.messageId)
    ensures NotificationHandler.Get(AsEvent(p), "channel") == Str(p.channel)
    ensures NotificationHandler.Get(AsEvent(p), "to") == Str(p.to)
    ensures NotificationHandler.Get(AsEvent(p), "plantName") == Str(p.plantName)
    ensures NotificationHandler.Get(AsEvent(p), "action") == Str(p.action)
    ensures NotificationHandler.Get(AsEvent(p), "dueAt") == Str(p.dueAt)
  {
  }

  /** Every payload `sendNotification` builds passes the Lambda's
      required-field check (given a non-empty clock rendering). */
  lemma PayloadAccepted(to: string, title: string, body: Option<string>, nowMs: nat, nowIso: string)
    requires nowIso != ""
    ensures NotificationHandler.Missing(AsEvent(PayloadFor(to, title, body, nowMs, nowIso))) == []
  {
    var p := PayloadFor(to, title, body, nowMs, nowIso);
    var e := AsEvent(p);
    EventFields(p);
    NotificationHandler.NothingMissing(e);
  }

  /** What invoking the Lambda produced: its decoded result, or an error
      from the invocation or from decoding the reply. */
  datatype InvokeReply = Invoked(result: NotificationHandler.HandlerResult) | InvokeFailed(message: string)

  /** `sendNotification(to, title, body)`: formats the destination step by
      step, builds the payload, and returns whatever the Lambda returned
      (an `ok: false` result included); an invocation error is rethrown.
      An undefined destination throws a TypeError at `to.trim()`, before
      any payload is built or the Lambda is invoked. */
  method SendNotification(to: Option<string>, title: string, body: Option<string>, nowMs: nat, nowIso: string, invoke: InvokeReply)
    returns (payload: Option<Payload>, r: Result<NotificationHandler.HandlerResult, ActivityError>)
    ensures to.None? ==> payload == None && r == Err(TypeError(TrimOfUndefined))
    ensures to.Some? ==> payload == Some(PayloadFor(to.value, title, body, nowMs, nowIso))
    ensures to.Some? && invoke.Invoked? ==> r == Ok(invoke.result)
    ensures to.Some? && invoke.InvokeFailed? ==> r == Err(LambdaInvokeFailed(invoke.message))
  {
    if to.None? {
      return None, Err(TypeError(TrimOfUndefined));
    }
    var formattedTo := Trim(to.value);
    if !("+" <= formattedTo) {
      if "65" <= formattedTo {
        formattedTo := "+" + formattedTo;
      } else {
        formattedTo := "+65" + formattedTo;
      }
    }
    payload := Some(Payload(
      "rmdr_" + Decimal(nowMs),
      "sms",
      formattedTo,
      if title != "" then title else "Unnamed Reminder",
      if title != "" then title else "Reminder",
      nowIso,
      "Asia/Singapore",
      if body.Some? && body.value != "" then body.value else "No notes provided"));
    match invoke {
      case Invoked(res) => r := Ok(res);
      case InvokeFailed(m) => r := Err(LambdaInvokeFailed(m));
    }
  }
}
