/** The Temporal workflows of the scheduler (scheduler-service/src/workflows.js):
    `SendReminderWorkflow`, which resolves a destination and sends one
    reminder, and `PollDueRemindersWorkflow`, which lists due reminders and
    starts one child workflow per reminder until it is cancelled.

    The Temporal runtime is not modelled. Each activity attempt is an input
    (how long it ran and what it produced); the retry policy decides which
    attempt's result the workflow sees. The `cancel` signal is an input that
    says whether it arrived before a given checkpoint. */
module Workflows {
  import opened Wrappers
  import opened JsText
  import Activities

  // ---------------------------------------------------------------------
  // Activity options and retries

  /** The activity options of `proxyActivities`. The backoff coefficient
      (2) and the maximum interval (100 times the initial interval) are
      Temporal's defaults, which the options leave in place. */
  datatype RetryPolicy = RetryPolicy(startToCloseMs: nat, initialIntervalMs: nat, maximumAttempts: nat)

  /** `startToCloseTimeout: "2 minutes"`, `initialInterval: "2s"`,
      `maximumAttempts: 5`. */
  const ActivityOptions := RetryPolicy(120000, 2000, 5)

  /** One attempt of an activity: how long it ran and what it returned or
      threw. */
  datatype Attempt<T> = Attempt(elapsedMs: nat, outcome: Result<T, string>)

  /** Why an attempt failed. */
  datatype AttemptError = Threw(message: string) | StartToCloseTimeout

  /** What an attempt counts as under the policy: one that outlives the
      start-to-close timeout fails with a timeout whatever it produced. */
  function AttemptResult<T>(policy: RetryPolicy, a: Attempt<T>): (r: Result<T, AttemptError>)
    ensures r.Ok? <==> a.elapsedMs <= policy.startToCloseMs && a.outcome.Ok?
    ensures r.Ok? ==> r.value == a.outcome.value
  {
    if a.elapsedMs > policy.startToCloseMs then Err(StartToCloseTimeout)
    else match a.outcome
      case Ok(v) => Ok(v)
      case Err(m) => Err(Threw(m))
  }

  /** The result the workflow sees from an activity, and how many attempts
      were made. */
  datatype ActivityRun<T> = ActivityRun(result: Result<T, AttemptError>, attempts: nat)

  /** Retrying from attempt `k`: stop at the first attempt that succeeds,
      or fail with the last attempt's error once `maximumAttempts` have been
      made. Every error is retried. */
  function RetryFrom<T>(policy: RetryPolicy, attempts: seq<Attempt<T>>, k: nat): (r: ActivityRun<T>)
    requires 0 < policy.maximumAttempts <= |attempts|
    requires k < policy.maximumAttempts
    decreases policy.maximumAttempts - k
    ensures k < r.attempts <= policy.maximumAttempts
    ensures r.result == AttemptResult(policy, attempts[r.attempts - 1])
    ensures forall j :: k <= j < r.attempts - 1 ==> AttemptResult(policy, attempts[j]).Err?
    ensures r.result.Err? ==> r.attempts == policy.maximumAttempts
  {
    var res := AttemptResult(policy, attempts[k]);
    if res.Ok? || k + 1 == policy.maximumAttempts then ActivityRun(res, k + 1)
    else RetryFrom(policy, attempts, k + 1)
  }

  /** An activity call under the policy; `attempts` lists what each attempt
      would do (at least as many as the policy allows). */
  function RunActivity<T>(policy: RetryPolicy, attempts: seq<Attempt<T>>): ActivityRun<T>
    requires 0 < policy.maximumAttempts <= |attempts|
  {
    RetryFrom(policy, attempts, 0)
  }

  /** The activity succeeds exactly when one of the allowed attempts does,
      and then the workflow sees the value of the first one that does. */
  lemma RunActivityOkIff<T>(policy: RetryPolicy, attempts: seq<Attempt<T>>)
    requires 0 < policy.maximumAttempts <= |attempts|
    ensures RunActivity(policy, attempts).result.Ok? <==>
      exists j :: 0 <= j < policy.maximumAttempts && AttemptResult(policy, attempts[j]).Ok?
    ensures forall j :: 0 <= j < RunActivity(policy, attempts).attempts - 1 ==>
      AttemptResult(policy, attempts[j]).Err?
  {
    var run := RunActivity(policy, attempts);
    if run.result.Ok? {
      assert AttemptResult(policy, attempts[run.attempts - 1]).Ok?;
    }
  }

  /** No activity of the workflows is attempted more than five times. */
  lemma ActivityAttemptsBounded<T>(attempts: seq<Attempt<T>>)
    requires ActivityOptions.maximumAttempts <= |attempts|
    ensures 1 <= RunActivity(ActivityOptions, attempts).attempts <= 5
  {
  }

  function Pow2(n: nat): (p: nat)
    ensures p >= 1
  {
    if n == 0 then 1 else 2 * Pow2(n - 1)
  }

  /** The wait before retry `n + 1` (after `n + 1` failed attempts): the
      initial interval doubled `n` times, capped at 100 times the initial
      interval. */
  function RetryDelayMs(policy: RetryPolicy, n: nat): (d: nat)
    ensures policy.initialIntervalMs <= d <= 100 * policy.initialIntervalMs
  {
    var grown := policy.initialIntervalMs * Pow2(n);
    assert grown >= policy.initialIntervalMs;
    if grown <= 100 * policy.initialIntervalMs then grown else 100 * policy.initialIntervalMs
  }

  /** The total wait before the attempt numbered `n` (zero-based). */
  function TotalBackoffMs(policy: RetryPolicy, n: nat): nat
  {
    if n == 0 then 0 else TotalBackoffMs(policy, n - 1) + RetryDelayMs(policy, n - 1)
  }

  /** With the workflows' options the waits are 2, 4, 8 and 16 seconds, so
      an activity that fails five times has waited 30 seconds between
      attempts and has run for at most 10 minutes. */
  lemma ActivityBackoffSchedule()
    ensures RetryDelayMs(ActivityOptions, 0) == 2000 && RetryDelayMs(ActivityOptions, 1) == 4000
    ensures RetryDelayMs(ActivityOptions, 2) == 8000 && RetryDelayMs(ActivityOptions, 3) == 16000
    ensures TotalBackoffMs(ActivityOptions, 4) == 30000
    ensures ActivityOptions.maximumAttempts * ActivityOptions.startToCloseMs == 600000
  {
    assert Pow2(1) == 2 && Pow2(2) == 4 && Pow2(3) == 8;
  }

  /** The run time an attempt is charged: the start-to-close timeout cuts
      off an attempt that runs longer. */
  function ChargedMs<T>(policy: RetryPolicy, a: Attempt<T>): (d: nat)
    ensures d <= policy.startToCloseMs && d <= a.elapsedMs
  {
    if a.elapsedMs <= policy.startToCloseMs then a.elapsedMs else policy.startToCloseMs
  }

  /** The run time of the first `n` attempts. */
  function RunTimeMs<T>(policy: RetryPolicy, attempts: seq<Attempt<T>>, n: nat): nat
    requires n <= |attempts|
  {
    if n == 0 then 0 else RunTimeMs(policy, attempts, n - 1) + ChargedMs(policy, attempts[n - 1])
  }

  /** `n` attempts run for at most `n` start-to-close timeouts. */
  lemma {:induction false} RunTimeBound<T>(policy: RetryPolicy, attempts: seq<Attempt<T>>, n: nat)
    requires n <= |attempts|
    ensures RunTimeMs(policy, attempts, n) <= n * policy.startToCloseMs
  {
    if n > 0 {
      RunTimeBound(policy, attempts, n - 1);
      assert (n - 1) * policy.startToCloseMs + policy.startToCloseMs == n * policy.startToCloseMs;
    }
  }

  /** However its attempts behave, an activity of the workflows runs for at
      most 10 minutes in all (five attempts of at most 2 minutes) and waits
      at most 30 seconds between attempts. */
  lemma ActivityRunTimeBounded<T>(attempts: seq<Attempt<T>>)
    requires ActivityOptions.maximumAttempts <= |attempts|
    ensures var run := RunActivity(ActivityOptions, attempts);
      && RunTimeMs(ActivityOptions, attempts, run.attempts) <= 600000
      && TotalBackoffMs(ActivityOptions, run.attempts - 1) <= 30000
  {
    var run := RunActivity(ActivityOptions, attempts);
    RunTimeBound(ActivityOptions, attempts, run.attempts);
    ActivityBackoffSchedule();
    assert TotalBackoffMs(ActivityOptions, 1) == 2000;
    assert TotalBackoffMs(ActivityOptions, 2) == 6000;
    assert TotalBackoffMs(ActivityOptions, 3) == 14000;
  }

  // ---------------------------------------------------------------------
  // SendReminderWorkflow

  /** The activity calls a workflow makes, with their arguments. */
  datatype ActivityCall =
    | ResolveTargetNumber(userId: string, isProxy: bool, proxy: Option<string>)
    | SendNotification(to: Option<string>, title: string, body: Option<string>)

  /** How a workflow run ended. `Cancelled` means the workflow saw the
      `cancel` flag and returned early; Temporal records that run as
      completed, not as a cancelled execution. */
  datatype WorkflowOutcome = Completed | Cancelled | Failed(error: AttemptError)

  /** What the environment does to one run of `SendReminderWorkflow`:
      whether `cancel` arrived with the start, whether it arrived while the
      destination was being resolved, and what each attempt of the two
      activities does. */
  datatype SendEnv = SendEnv(
    cancelledAtStart: bool,
    cancelledDuringResolve: bool,
    resolveAttempts: seq<Attempt<Option<string>>>,
    sendAttempts: seq<Attempt<NotificationResult>>)

  /** The value `sendNotification` resolves with (the Lambda's result),
      which the workflow discards. */
  type NotificationResult = Activities.NotificationHandler.HandlerResult

  predicate WellFormedSendEnv(env: SendEnv)
  {
    ActivityOptions.maximumAttempts <= |env.resolveAttempts|
    && ActivityOptions.maximumAttempts <= |env.sendAttempts|
  }

  /** The attempts of `sendNotification` with an undefined destination:
      each throws the TypeError of `to.trim()` at once, whatever the
      environment would have done. */
  const UndefinedSendAttempt: Attempt<NotificationResult> := Attempt(0, Err(Activities.TrimOfUndefined))
  const UndefinedSendAttempts: seq<Attempt<NotificationResult>> :=
    [UndefinedSendAttempt, UndefinedSendAttempt, UndefinedSendAttempt, UndefinedSendAttempt, UndefinedSendAttempt]

  /** The run of `sendNotification` for the resolved destination `to`. */
  function SendRun(to: Option<string>, env: SendEnv): ActivityRun<NotificationResult>
    requires WellFormedSendEnv(env)
  {
    RunActivity(ActivityOptions, if to.Some? then env.sendAttempts else UndefinedSendAttempts)
  }

  /** A user without a phone number exhausts the retry policy: all five
      attempts throw, and the activity fails with the TypeError. */
  lemma UndefinedDestinationFails(env: SendEnv)
    requires WellFormedSendEnv(env)
    ensures SendRun(None, env) == ActivityRun(Err(Threw(Activities.TrimOfUndefined)), 5)
  {
    var run := SendRun(None, env);
    assert UndefinedSendAttempts[run.attempts - 1] == UndefinedSendAttempt;
  }

  /** `SendReminderWorkflow({reminder})`. The `cancelled` flag is checked
      before each activity; a failing activity (after its retries) fails the
      workflow. Returns the activity calls made, in order, and the outcome. */
  method SendReminderWorkflow(reminder: Activities.ReminderRow, env: SendEnv)
    returns (calls: seq<ActivityCall>, outcome: WorkflowOutcome)
    requires WellFormedSendEnv(env)
    ensures env.cancelledAtStart ==> calls == [] && outcome == Cancelled
    ensures !env.cancelledAtStart ==>
      |calls| >= 1 && calls[0] == ResolveTargetNumber(reminder.userId, reminder.isProxy, reminder.proxy)
    ensures |calls| <= 2
    ensures |calls| == 2 <==>
      && !env.cancelledAtStart
      && RunActivity(ActivityOptions, env.resolveAttempts).result.Ok?
      && !env.cancelledDuringResolve
    ensures |calls| == 2 ==>
      calls[1] == SendNotification(RunActivity(ActivityOptions, env.resolveAttempts).result.value,
                                   Activities.ReminderTitle(reminder), reminder.notes)
    ensures outcome == Completed <==>
      |calls| == 2 && SendRun(RunActivity(ActivityOptions, env.resolveAttempts).result.value, env).result.Ok?
    ensures outcome.Failed? ==>
      || (|calls| == 1 && RunActivity(ActivityOptions, env.resolveAttempts).result == Err(outcome.error))
      || (|calls| == 2 &&
          SendRun(RunActivity(ActivityOptions, env.resolveAttempts).result.value, env).result == Err(outcome.error))
    ensures !env.cancelledAtStart && RunActivity(ActivityOptions, env.resolveAttempts).result.Err? ==>
      outcome == Failed(RunActivity(ActivityOptions, env.resolveAttempts).result.error)
    ensures |calls| == 2 && SendRun(RunActivity(ActivityOptions, env.resolveAttempts).result.value, env).result.Err? ==>
      outcome == Failed(SendRun(RunActivity(ActivityOptions, env.resolveAttempts).result.value, env).result.error)
    ensures |calls| == 2 && RunActivity(ActivityOptions, env.resolveAttempts).result.value.None? ==>
      outcome == Failed(Threw(Activities.TrimOfUndefined))
    ensures outcome == Cancelled <==>
      || env.cancelledAtStart
      || (RunActivity(ActivityOptions, env.resolveAttempts).result.Ok? && env.cancelledDuringResolve)
  {
    var cancelled := env.cancelledAtStart;
    calls := [];
    if cancelled {
      return [], Cancelled;
    }
    calls := calls + [ResolveTargetNumber(reminder.userId, reminder.isProxy, reminder.proxy)];
    var resolved := RunActivity(ActivityOptions, env.resolveAttempts);
    if resolved.result.Err? {
      return calls, Failed(resolved.result.error);
    }
    var phone := resolved.result.value;
    cancelled := cancelled || env.cancelledDuringResolve;
    if cancelled {
      return calls, Cancelled;
    }
    calls := calls + [SendNotification(phone, Activities.ReminderTitle(reminder), reminder.notes)];
    var sent := SendRun(phone, env);
    if phone.None? {
      UndefinedDestinationFails(env);
    }
    if sent.result.Err? {
      return calls, Failed(sent.result.error);
    }
    outcome := Completed;
  }

  // ---------------------------------------------------------------------
  // PollDueRemindersWorkflow

  /** The window every poll asks for, in seconds. */
  const PollWindowSec: nat := 60

  /** The pause at the end of every poll, in milliseconds. */
  const PollSleepMs: nat := 30000

  /** The effects of the polling workflow, in order. */
  datatype PollEffect =
    | Listed(windowSec: nat)
    | StartChild(workflowId: string, reminder: Activities.ReminderRow)
    | Slept(ms: nat)

  /** What the environment does during one iteration of the loop: what each
      attempt of `listDueReminders` does, the index of the first child whose
      start throws (if any), and whether `cancel` arrives before the loop
      head is next reached. */
  datatype PollRound = PollRound(
    listAttempts: seq<Attempt<seq<Activities.ReminderRow>>>,
    failingStart: Option<nat>,
    cancelled: bool)

  predicate WellFormedRounds(rounds: seq<PollRound>)
  {
    forall i :: 0 <= i < |rounds| ==> ActivityOptions.maximumAttempts <= |rounds[i].listAttempts|
  }

  /** `send-${r.id}`. */
  function ChildWorkflowId(r: Activities.ReminderRow): string
  {
    "send-" + r.id
  }

  /** Distinct reminder ids give distinct child workflow ids. */
  lemma ChildWorkflowIdInjective(a: Activities.ReminderRow, b: Activities.ReminderRow)
    ensures ChildWorkflowId(a) == ChildWorkflowId(b) <==> a.id == b.id
  {
    if ChildWorkflowId(a) == ChildWorkflowId(b) {
      assert a.id == ChildWorkflowId(a)[5..];
      assert b.id == ChildWorkflowId(b)[5..];
    }
  }

  /** The children started for a batch, in list order: all of them, or up
      to and including the first whose start throws. */
  function StartCalls(rows: seq<Activities.ReminderRow>, failingStart: Option<nat>): (r: seq<PollEffect>)
  {
    if rows == [] then []
    else if failingStart == Some(0) then [StartChild(ChildWorkflowId(rows[0]), rows[0])]
    else
      var rest := if failingStart.Some? then Some(failingStart.value - 1) else None;
      [StartChild(ChildWorkflowId(rows[0]), rows[0])] + StartCalls(rows[1..], rest)
  }

  /** The number of start calls a batch makes. */
  function StartCount(n: nat, failingStart: Option<nat>): nat
  {
    if failingStart.Some? && failingStart.value < n then failingStart.value + 1 else n
  }

  /** Children are started in list order, each under `send-<id>`; a start
      that throws ends the batch, so the children after it are not started. */
  lemma {:induction false} StartCallsShape(rows: seq<Activities.ReminderRow>, failingStart: Option<nat>)
    ensures |StartCalls(rows, failingStart)| == StartCount(|rows|, failingStart)
    ensures forall i :: 0 <= i < |StartCalls(rows, failingStart)| ==>
      StartCalls(rows, failingStart)[i] == StartChild(ChildWorkflowId(rows[i]), rows[i])
  {
    if rows != [] && failingStart != Some(0) {
      var rest := if failingStart.Some? then Some(failingStart.value - 1) else None;
      StartCallsShape(rows[1..], rest);
      var tail := StartCalls(rows[1..], rest);
      assert StartCalls(rows, failingStart) == [StartChild(ChildWorkflowId(rows[0]), rows[0])] + tail;
    }
  }

  /** The `for` loop over a listed batch: start a child per reminder, in
      order, until a start throws. */
  method StartChildren(reminders: seq<Activities.ReminderRow>, failingStart: Option<nat>)
    returns (started: seq<PollEffect>)
    ensures started == StartCalls(reminders, failingStart)
  {
    started := [];
    var j := 0;
    while j < |reminders|
      invariant 0 <= j <= |reminders|
      invariant |started| == j
      invariant forall i :: 0 <= i < j ==> started[i] == StartChild(ChildWorkflowId(reminders[i]), reminders[i])
      invariant failingStart.Some? ==> failingStart.value >= j
    {
      started := started + [StartChild(ChildWorkflowId(reminders[j]), reminders[j])];
      if failingStart == Some(j) {
        break;
      }
      j := j + 1;
    }
    StartCallsShape(reminders, failingStart);
  }

  /** One iteration: list with the 60-second window, start the children of
      a successful listing, swallow any error, then sleep 30 seconds. */
  function RoundEffects(round: PollRound): seq<PollEffect>
    requires ActivityOptions.maximumAttempts <= |round.listAttempts|
  {
    var listed := RunActivity(ActivityOptions, round.listAttempts).result;
    [Listed(PollWindowSec)]
    + (if listed.Ok? then StartCalls(listed.value, round.failingStart) else [])
    + [Slept(PollSleepMs)]
  }

  /** The effects of the first iterations, in order. */
  function PollEffects(rounds: seq<PollRound>): seq<PollEffect>
    requires WellFormedRounds(rounds)
  {
    if rounds == [] then [] else PollEffects(rounds[..|rounds| - 1]) + RoundEffects(rounds[|rounds| - 1])
  }

  /** One more iteration appends its own effects. */
  lemma PollEffectsSnoc(rounds: seq<PollRound>, k: nat)
    requires WellFormedRounds(rounds) && k < |rounds|
    ensures PollEffects(rounds[..k + 1]) == PollEffects(rounds[..k]) + RoundEffects(rounds[k])
  {
    assert rounds[..k + 1][..k] == rounds[..k];
  }

  /** Every listing asks for the 60-second window, every child is started
      under `send-<id>` of the reminder it is given, every pause is 30
      seconds, and the effects of any number of iterations end with a
      pause, whether or not the iterations failed. */
  lemma {:induction false} PollEffectsShape(rounds: seq<PollRound>)
    requires WellFormedRounds(rounds)
    ensures forall e :: e in PollEffects(rounds) && e.Listed? ==> e.windowSec == PollWindowSec
    ensures forall e :: e in PollEffects(rounds) && e.StartChild? ==> e.workflowId == ChildWorkflowId(e.reminder)
    ensures forall e :: e in PollEffects(rounds) && e.Slept? ==> e.ms == PollSleepMs
    ensures rounds != [] ==> PollEffects(rounds)[|PollEffects(rounds)| - 1] == Slept(PollSleepMs)
  {
    if rounds != [] {
      var init := rounds[..|rounds| - 1];
      var last := rounds[|rounds| - 1];
      PollEffectsShape(init);
      var listed := RunActivity(ActivityOptions, last.listAttempts).result;
      if listed.Ok? {
        StartCallsShape(listed.value, last.failingStart);
      }
      assert PollEffects(rounds) == PollEffects(init) + RoundEffects(last);
    }
  }

  /** How many iterations run: none when `cancel` came with the start,
      otherwise up to and including the first iteration during which it
      arrives (or all of the given ones). */
  function RoundsRun(cancelledAtStart: bool, rounds: seq<PollRound>): (n: nat)
    ensures n <= |rounds|
    ensures cancelledAtStart ==> n == 0
    ensures !cancelledAtStart ==> forall i :: 0 <= i < n - 1 ==> !rounds[i].cancelled
    ensures !cancelledAtStart && n < |rounds| ==> n > 0 && rounds[n - 1].cancelled
  {
    if cancelledAtStart || rounds == [] then 0
    else if rounds[0].cancelled then 1
    else 1 + RoundsRun(false, rounds[1..])
  }

  /** The number of iterations is determined by where `cancel` first
      arrives. */
  lemma {:induction false} RoundsRunUnique(rounds: seq<PollRound>, n: nat)
    requires n <= |rounds|
    requires forall i :: 0 <= i < n - 1 ==> !rounds[i].cancelled
    requires n == |rounds| || (n > 0 && rounds[n - 1].cancelled)
    ensures RoundsRun(false, rounds) == n
  {
    if rounds != [] && !rounds[0].cancelled {
      assert n > 0;
      RoundsRunUnique(rounds[1..], n - 1);
    } else if rounds != [] {
      assert n == 1;
    }
  }

  /** The body of one iteration: list the due reminders, start their
      children when the listing succeeded, then sleep. */
  method PollOnce(round: PollRound) returns (batch: seq<PollEffect>)
    requires ActivityOptions.maximumAttempts <= |round.listAttempts|
    ensures batch == RoundEffects(round)
  {
    batch := [Listed(PollWindowSec)];
    var listed := RunActivity(ActivityOptions, round.listAttempts);
    if listed.result.Ok? {
      var started := StartChildren(listed.result.value, round.failingStart);
      batch := batch + started;
    }
    batch := batch + [Slept(PollSleepMs)];
  }

  /** Iteration `k` of the loop extends the effects of the iterations
      before it. */
  method PollIteration(rounds: seq<PollRound>, k: nat, effects: seq<PollEffect>) returns (effects': seq<PollEffect>)
    requires WellFormedRounds(rounds) && k < |rounds|
    requires effects == PollEffects(rounds[..k])
    ensures effects' == PollEffects(rounds[..k + 1])
  {
    var batch := PollOnce(rounds[k]);
    PollEffectsSnoc(rounds, k);
    effects' := effects + batch;
  }

  /** `PollDueRemindersWorkflow()`. The loop runs while the `cancelled` flag
      is false; only the given iterations are simulated, so `exited` tells
      whether the workflow returned or is still polling after them. */
  method PollDueRemindersWorkflow(cancelledAtStart: bool, rounds: seq<PollRound>)
    returns (effects: seq<PollEffect>, exited: bool)
    requires WellFormedRounds(rounds)
    ensures effects == PollEffects(rounds[..RoundsRun(cancelledAtStart, rounds)])
    ensures exited <==> cancelledAtStart || exists i :: 0 <= i < |rounds| && rounds[i].cancelled
  {
    var cancelled := cancelledAtStart;
    effects := [];
    var k := 0;
    while !cancelled && k < |rounds|
      invariant 0 <= k <= |rounds|
      invariant cancelledAtStart ==> k == 0 && cancelled
      invariant !cancelled ==> forall i :: 0 <= i < k ==> !rounds[i].cancelled
      invariant cancelled && !cancelledAtStart ==>
        k > 0 && rounds[k - 1].cancelled && forall i :: 0 <= i < k - 1 ==> !rounds[i].cancelled
      invariant effects == PollEffects(rounds[..k])
      decreases |rounds| - k
    {
      effects := PollIteration(rounds, k, effects);
      cancelled := cancelled || rounds[k].cancelled;
      k := k + 1;
    }
    if !cancelledAtStart {
      RoundsRunUnique(rounds, k);
    }
    exited := cancelled;
    if cancelled && !cancelledAtStart {
      assert rounds[k - 1].cancelled;
    }
  }
}
