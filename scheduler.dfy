/** The cron path of the scheduler (scheduler-service/src/scheduler.ts):
    `pollAndProcessReminders` lists the due reminders and runs
    `processReminder` on each of them, then tallies how many settled as
    fulfilled and how many as rejected.

    Every remote answer is an input. `Promise.allSettled` runs the
    per-reminder work concurrently, but the runs share nothing, so the model
    maps `processReminder` over the list, each reminder with its own
    environment. */
module Scheduler {
  import opened Wrappers
  import opened JsText
  import opened Activities

  /** What the outside world does for one reminder: the user service's
      answer, the Lambda's answer, and the clock when the payload is built. */
  datatype ReminderEnv = ReminderEnv(lookup: UserLookup, invoke: InvokeReply, nowMs: nat, nowIso: string)

  /** The activity calls made for one reminder. */
  datatype Call =
    | Resolve(userId: string, isProxy: bool, proxy: Option<string>)
    | Send(payload: Payload)

  /** How a promise settled. */
  datatype Settled = Fulfilled | Rejected(error: ActivityError)

  /** One run of `processReminder`: the calls made, the error it caught and
      logged (if any), and how its promise settled. */
  datatype Processed = Processed(calls: seq<Call>, caught: Option<ActivityError>, settled: Settled)

  /** True when the reminder resolves to a phone number, so that
      `sendNotification` reaches the Lambda. */
  predicate Resolves(reminder: ReminderRow, lookup: UserLookup)
  {
    var t := ResolveTargetNumber(reminder.userId, reminder.isProxy, reminder.proxy, lookup);
    t.Ok? && t.value.Some?
  }

  /** `processReminder(reminder)`: resolve the destination, then send; any
      error of either step is caught and logged, so the promise always
      fulfils. A missing phone number makes `sendNotification` throw a
      TypeError before the Lambda is invoked; it is caught like the rest.
      A send that the Lambda answers with `ok: false` is not an error
      here. The `Send` call records the payload handed to the Lambda. */
  function ProcessReminder(reminder: ReminderRow, env: ReminderEnv): (r: Processed)
    ensures r.settled == Fulfilled
    ensures 1 <= |r.calls| <= 2 && r.calls[0] == Resolve(reminder.userId, reminder.isProxy, reminder.proxy)
    ensures |r.calls| == 2 <==> Resolves(reminder, env.lookup)
    ensures |r.calls| == 2 ==>
      r.calls[1] == Send(PayloadFor(
        ResolveTargetNumber(reminder.userId, reminder.isProxy, reminder.proxy, env.lookup).value.value,
        ReminderTitle(reminder), reminder.notes, env.nowMs, env.nowIso))
    ensures ResolveTargetNumber(reminder.userId, reminder.isProxy, reminder.proxy, env.lookup) == Ok(None) ==>
      r.caught == Some(TypeError(TrimOfUndefined))
    ensures r.caught.None? <==> |r.calls| == 2 && env.invoke.Invoked?
  {
    var resolve := Resolve(reminder.userId, reminder.isProxy, reminder.proxy);
    match ResolveTargetNumber(reminder.userId, reminder.isProxy, reminder.proxy, env.lookup)
    case Err(e) => Processed([resolve], Some(e), Fulfilled)
    case Ok(None) => Processed([resolve], Some(TypeError(TrimOfUndefined)), Fulfilled)
    case Ok(Some(phone)) =>
      var payload := PayloadFor(phone, ReminderTitle(reminder), reminder.notes, env.nowMs, env.nowIso);
      match env.invoke
      case Invoked(_) => Processed([resolve, Send(payload)], None, Fulfilled)
      case InvokeFailed(m) => Processed([resolve, Send(payload)], Some(LambdaInvokeFailed(m)), Fulfilled)
  }

  /** `reminders.map(processReminder)`, the i-th reminder in the i-th
      environment. */
  function ProcessAll(reminders: seq<ReminderRow>, envs: seq<ReminderEnv>): (r: seq<Processed>)
    requires |envs| == |reminders|
    ensures |r| == |reminders|
    ensures forall i :: 0 <= i < |r| ==> r[i] == ProcessReminder(reminders[i], envs[i])
  {
    if reminders == [] then []
    else [ProcessReminder(reminders[0], envs[0])] + ProcessAll(reminders[1..], envs[1..])
  }

  /** `results.filter(r => r.status === "fulfilled").length`. */
  function CountFulfilled(results: seq<Processed>): nat
  {
    if results == [] then 0
    else (if results[0].settled == Fulfilled then 1 else 0) + CountFulfilled(results[1..])
  }

  /** `results.filter(r => r.status === "rejected").length`. */
  function CountRejected(results: seq<Processed>): nat
  {
    if results == [] then 0
    else (if results[0].settled.Rejected? then 1 else 0) + CountRejected(results[1..])
  }

  /** Every result is counted once, as one or the other. */
  lemma {:induction false} TallyPartition(results: seq<Processed>)
    ensures CountFulfilled(results) + CountRejected(results) == |results|
  {
    if results != [] {
      TallyPartition(results[1..]);
    }
  }

  /** How a poll ended. Listing errors are caught and logged; the promise
      of `pollAndProcessReminders` itself never rejects. */
  datatype PollOutcome =
    | ListFailed(error: ActivityError)
    | NothingDue
    | AllProcessed(results: seq<Processed>, succeeded: nat, failed: nat)

  /** A poll: the window it asked for and how it ended. */
  datatype PollRun = PollRun(windowSec: nat, outcome: PollOutcome)

  /** The default of `DUE_WINDOW_SEC`. */
  const DefaultDueWindowSec: nat := 60

  /** The environment supplies one entry per listed reminder. */
  predicate EnvsFit(listReply: Result<DueReply, ActivityError>, envs: seq<ReminderEnv>)
  {
    ListDueReminders(listReply).Ok? ==> |envs| == |ListDueReminders(listReply).value|
  }

  /** `pollAndProcessReminders()` with `DUE_WINDOW_SEC = dueWindowSec`, the
      reminder service answering `listReply`. */
  function PollAndProcessReminders(dueWindowSec: nat, listReply: Result<DueReply, ActivityError>, envs: seq<ReminderEnv>)
    : (r: PollRun)
    requires EnvsFit(listReply, envs)
    ensures r.windowSec == dueWindowSec
    ensures r.outcome.ListFailed? <==> listReply.Err?
    ensures r.outcome.NothingDue? <==> ListDueReminders(listReply) == Ok([])
    ensures r.outcome.AllProcessed? ==>
      && ListDueReminders(listReply).Ok?
      && r.outcome.results == ProcessAll(ListDueReminders(listReply).value, envs)
    ensures r.outcome.AllProcessed? <==> ListDueReminders(listReply).Ok? && ListDueReminders(listReply).value != []
    ensures r.outcome.AllProcessed? ==>
      r.outcome.succeeded == |r.outcome.results| == |ListDueReminders(listReply).value| && r.outcome.failed == 0
  {
    match ListDueReminders(listReply)
    case Err(e) => PollRun(dueWindowSec, ListFailed(e))
    case Ok(reminders) =>
      if |reminders| == 0 then PollRun(dueWindowSec, NothingDue)
      else
        var results := ProcessAll(reminders, envs);
        TallyAllSucceeded(reminders, envs);
        PollRun(dueWindowSec, AllProcessed(results, CountFulfilled(results), CountRejected(results)))
  }

  /** The number of activity calls a poll makes (the listing aside). */
  function CallCount(results: seq<Processed>): nat
  {
    if results == [] then 0 else |results[0].calls| + CallCount(results[1..])
  }

  /** An empty list makes no resolve or send call. */
  lemma NothingDueMakesNoCalls(dueWindowSec: nat, listReply: Result<DueReply, ActivityError>, envs: seq<ReminderEnv>)
    requires EnvsFit(listReply, envs)
    requires ListDueReminders(listReply) == Ok([])
    ensures PollAndProcessReminders(dueWindowSec, listReply, envs).outcome == NothingDue
  {
  }

  /** Every reminder is processed exactly once, and since `processReminder`
      never rejects, the tally is always all succeeded and none failed. */
  lemma {:induction false} TallyAllSucceeded(reminders: seq<ReminderRow>, envs: seq<ReminderEnv>)
    requires |envs| == |reminders|
    ensures CountFulfilled(ProcessAll(reminders, envs)) == |reminders|
    ensures CountRejected(ProcessAll(reminders, envs)) == 0
  {
    if reminders != [] {
      TallyAllSucceeded(reminders[1..], envs[1..]);
      assert ProcessAll(reminders, envs)[1..] == ProcessAll(reminders[1..], envs[1..]);
    }
  }

  /** A failure for one reminder changes nothing for the others: whatever
      the environment of reminder `i` does, every other reminder is
      processed the same way. */
  lemma FailureIsolated(reminders: seq<ReminderRow>, envs: seq<ReminderEnv>, i: nat, other: ReminderEnv)
    requires |envs| == |reminders| && i < |reminders|
    ensures forall j :: 0 <= j < |reminders| && j != i ==>
      ProcessAll(reminders, envs[i := other])[j] == ProcessAll(reminders, envs)[j]
  {
  }

  /** Resolve precedes send for every reminder, and a reminder whose
      resolution fails, or yields no phone number, is never sent. */
  lemma {:induction false} ResolveBeforeSend(reminders: seq<ReminderRow>, envs: seq<ReminderEnv>)
    requires |envs| == |reminders|
    ensures forall i :: 0 <= i < |reminders| ==>
      && ProcessAll(reminders, envs)[i].calls[0].Resolve?
      && (ProcessAll(reminders, envs)[i].calls[|ProcessAll(reminders, envs)[i].calls| - 1].Send? <==>
          Resolves(reminders[i], envs[i].lookup))
  {
    var results := ProcessAll(reminders, envs);
    forall i | 0 <= i < |reminders|
      ensures results[i].calls[0].Resolve?
      ensures results[i].calls[|results[i].calls| - 1].Send? <==> Resolves(reminders[i], envs[i].lookup)
    {
      assert results[i] == ProcessReminder(reminders[i], envs[i]);
    }
  }

  /** A poll with due reminders makes between one and two calls per
      reminder, so a list of n reminders costs at most 2n calls. */
  lemma {:induction false} CallsBounded(reminders: seq<ReminderRow>, envs: seq<ReminderEnv>)
    requires |envs| == |reminders|
    ensures |reminders| <= CallCount(ProcessAll(reminders, envs)) <= 2 * |reminders|
  {
    if reminders != [] {
      CallsBounded(reminders[1..], envs[1..]);
      assert ProcessAll(reminders, envs)[1..] == ProcessAll(reminders[1..], envs[1..]);
    }
  }
}
