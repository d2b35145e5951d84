/** Start-up of the scheduler service (scheduler-service/src/server.ts):
    `ensurePollingSchedule` replaces the Temporal schedule that starts the
    polling workflow, and `main` installs it before the health endpoint
    listens.

    The Temporal namespace is modelled as a registry object holding the
    schedules by id, the workflow executions, and the log of requests made
    to it. Connection, deletion, listing, termination and creation errors
    are inputs. */
module ScheduleServer {
  import opened Wrappers
  import opened JsText

  const ScheduleId := "poll-due-reminders"
  const PollWorkflowType := "PollDueRemindersWorkflow"
  const RunningPollsQuery := "WorkflowType='PollDueRemindersWorkflow' AND ExecutionStatus='Running'"

  /** The defaults of `POLL_INTERVAL_MS` and of `PORT`. */
  const DefaultPollIntervalMs: nat := 30000
  const DefaultPort: int := 4000

  /** `Math.max(5, Math.floor(POLL_INTERVAL_MS / 1000))`: the interval in
      whole seconds, never below five. */
  function EverySeconds(pollIntervalMs: nat): (r: nat)
    ensures r >= 5 && r >= pollIntervalMs / 1000
    ensures r == 5 || r == pollIntervalMs / 1000
  {
    if pollIntervalMs / 1000 > 5 then pollIntervalMs / 1000 else 5
  }

  /** Below six seconds the interval is clamped to five; the default
      interval gives a schedule every thirty seconds. */
  lemma EverySecondsExamples(pollIntervalMs: nat)
    ensures pollIntervalMs < 6000 ==> EverySeconds(pollIntervalMs) == 5
    ensures EverySeconds(DefaultPollIntervalMs) == 30
  {
  }

  /** `${everySeconds}s`. */
  function IntervalText(seconds: nat): string
  {
    Decimal(seconds) + "s"
  }

  /** The interval text is a decimal number of seconds followed by `s`, and
      the number read back is the interval. */
  lemma IntervalTextReadsBack(seconds: nat)
    ensures |IntervalText(seconds)| >= 2 && IntervalText(seconds)[|IntervalText(seconds)| - 1] == 's'
    ensures AllDigits(IntervalText(seconds)[..|IntervalText(seconds)| - 1])
    ensures DigitsValue(IntervalText(seconds)[..|IntervalText(seconds)| - 1]) == seconds
  {
    assert IntervalText(seconds)[..|IntervalText(seconds)| - 1] == Decimal(seconds);
    DecimalRoundTrip(seconds);
  }

  /** Temporal's overlap policies. */
  datatype OverlapPolicy = Skip | BufferOne | BufferAll | CancelOther | TerminateOther | AllowAll

  /** A schedule: its interval spec, the workflow it starts, and its
      policies and state. */
  datatype Schedule = Schedule(
    every: string,
    workflowType: string,
    taskQueue: string,
    args: seq<JsValue>,
    overlap: OverlapPolicy,
    paused: bool)

  /** The settings `ensurePollingSchedule` reads. */
  datatype Config = Config(pollIntervalMs: nat, taskQueue: string)

  /** The schedule `ensurePollingSchedule` creates. */
  function PollSchedule(config: Config): (s: Schedule)
    ensures s.workflowType == PollWorkflowType && s.taskQueue == config.taskQueue && s.args == []
    ensures s.overlap == Skip && !s.paused
    ensures s.every == IntervalText(EverySeconds(config.pollIntervalMs))
  {
    Schedule(IntervalText(EverySeconds(config.pollIntervalMs)), PollWorkflowType, config.taskQueue, [], Skip, false)
  }

  /** A workflow execution in the namespace. */
  datatype Execution = Execution(workflowId: string, workflowType: string, running: bool)

  /** Which of the remote requests fail: connecting, deleting the old
      schedule (a missing schedule is not a failure), listing, the
      termination of the n-th listed execution, creating. */
  datatype Faults = Faults(
    connectFails: bool,
    deleteFails: bool,
    listFails: bool,
    terminateFailsAt: Option<nat>,
    createFails: bool)

  const NoFaults := Faults(false, false, false, None, false)

  /** Why `ensurePollingSchedule` rejected. */
  datatype SetupError = ConnectFailed | ScheduleExists | CreateFailed

  /** The requests made to the namespace, in order. */
  datatype RegistryOp =
    | DeleteSchedule(id: string)
    | ListExecutions(query: string)
    | TerminateExecution(workflowId: string)
    | CreateSchedule(id: string, schedule: Schedule)

  /** The ids of the running polling executions, in listing order. */
  function RunningPolls(execs: seq<Execution>): (ids: seq<string>)
    ensures forall e :: e in execs && e.running && e.workflowType == PollWorkflowType ==> e.workflowId in ids
    ensures forall id :: id in ids <==>
      exists e :: e in execs && e.running && e.workflowType == PollWorkflowType && e.workflowId == id
  {
    if execs == [] then []
    else
      var e := execs[|execs| - 1];
      RunningPolls(execs[..|execs| - 1]) + (if e.running && e.workflowType == PollWorkflowType then [e.workflowId] else [])
  }

  /** Terminating `id` stops the execution with that id and leaves every
      other one alone. */
  function TerminateOne(execs: seq<Execution>, id: string): (r: seq<Execution>)
    ensures |r| == |execs|
    ensures forall i :: 0 <= i < |r| ==> r[i] == if execs[i].workflowId == id then execs[i].(running := false) else execs[i]
  {
    seq(|execs|, i requires 0 <= i < |execs| => if execs[i].workflowId == id then execs[i].(running := false) else execs[i])
  }

  /** Terminating the given ids one after another. */
  function TerminateAll(execs: seq<Execution>, ids: seq<string>): (r: seq<Execution>)
    ensures |r| == |execs|
  {
    if ids == [] then execs else TerminateOne(TerminateAll(execs, ids[..|ids| - 1]), ids[|ids| - 1])
  }

  /** Terminating a list of ids stops exactly the executions with a listed
      id, whatever the order, and leaves every other one as it was. */
  lemma {:induction false} TerminateAllEffect(execs: seq<Execution>, ids: seq<string>)
    ensures forall i :: 0 <= i < |execs| ==>
      TerminateAll(execs, ids)[i] == if execs[i].workflowId in ids then execs[i].(running := false) else execs[i]
  {
    if ids != [] {
      var init := ids[..|ids| - 1];
      TerminateAllEffect(execs, init);
      assert forall x :: x in ids <==> x in init || x == ids[|ids| - 1] by {
        assert ids == init + [ids[|ids| - 1]];
      }
    }
  }

  /** The terminations attempted: every listed execution, or up to and
      including the first whose termination throws (the loop sits inside
      the `try`, so that error ends it). */
  function TerminationAttempts(execs: seq<Execution>, faults: Faults): seq<string>
  {
    if faults.connectFails || faults.listFails then []
    else
      var listed := RunningPolls(execs);
      if faults.terminateFailsAt.Some? && faults.terminateFailsAt.value < |listed|
      then listed[..faults.terminateFailsAt.value + 1] else listed
  }

  /** The terminations that went through. */
  function Terminated(execs: seq<Execution>, faults: Faults): seq<string>
  {
    if faults.connectFails || faults.listFails then []
    else
      var listed := RunningPolls(execs);
      if faults.terminateFailsAt.Some? && faults.terminateFailsAt.value < |listed|
      then listed[..faults.terminateFailsAt.value] else listed
  }

  function TerminateOps(ids: seq<string>): (ops: seq<RegistryOp>)
    ensures |ops| == |ids|
    ensures forall i :: 0 <= i < |ids| ==> ops[i] == TerminateExecution(ids[i])
  {
    if ids == [] then [] else TerminateOps(ids[..|ids| - 1]) + [TerminateExecution(ids[|ids| - 1])]
  }

  /** One more termination stops one more execution. */
  lemma TerminateAllSnoc(execs: seq<Execution>, ids: seq<string>, j: nat)
    requires j < |ids|
    ensures TerminateAll(execs, ids[..j + 1]) == TerminateOne(TerminateAll(execs, ids[..j]), ids[j])
  {
    assert ids[..j + 1][..j] == ids[..j];
  }

  /** One more termination is one more request. */
  lemma TerminateOpsSnoc(ids: seq<string>, j: nat)
    requires j < |ids|
    ensures TerminateOps(ids[..j + 1]) == TerminateOps(ids[..j]) + [TerminateExecution(ids[j])]
  {
    assert ids[..j + 1][..j] == ids[..j];
  }

  /** The schedules once the delete request is done. */
  function AfterDelete(schedules: map<string, Schedule>, faults: Faults): map<string, Schedule>
  {
    if faults.deleteFails then schedules else schedules - {ScheduleId}
  }

  /** How the create request settles, given the schedules it meets. */
  function CreateResult(schedules: map<string, Schedule>, faults: Faults): Result<(), SetupError>
  {
    if ScheduleId in schedules then Err(ScheduleExists)
    else if faults.createFails then Err(CreateFailed)
    else Ok(())
  }

  /** The schedules after the create request. */
  function CreateSchedules(schedules: map<string, Schedule>, config: Config, faults: Faults): map<string, Schedule>
  {
    if CreateResult(schedules, faults).Ok? then schedules[ScheduleId := PollSchedule(config)] else schedules
  }

  /** The listing request and the termination requests after it. */
  function TerminateRunningOps(execs: seq<Execution>, faults: Faults): seq<RegistryOp>
  {
    [ListExecutions(RunningPollsQuery)] + TerminateOps(TerminationAttempts(execs, faults))
  }

  /** The requests made so far, followed by the listing and the given
      terminations, are the requests of `TerminateRunningOps`. */
  lemma TerminateRunningOpsAfter(ops0: seq<RegistryOp>, execs: seq<Execution>, faults: Faults, attempts: seq<string>)
    requires attempts == TerminationAttempts(execs, faults)
    ensures ops0 + [ListExecutions(RunningPollsQuery)] + TerminateOps(attempts) == ops0 + TerminateRunningOps(execs, faults)
  {
  }

  /** How `ensurePollingSchedule` settles. */
  function SetupResult(schedules: map<string, Schedule>, faults: Faults): Result<(), SetupError>
  {
    if faults.connectFails then Err(ConnectFailed) else CreateResult(AfterDelete(schedules, faults), faults)
  }

  /** The schedules afterwards. */
  function SetupSchedules(schedules: map<string, Schedule>, config: Config, faults: Faults): map<string, Schedule>
  {
    if faults.connectFails then schedules else CreateSchedules(AfterDelete(schedules, faults), config, faults)
  }

  /** The requests made, in order. */
  function SetupOps(execs: seq<Execution>, config: Config, faults: Faults): seq<RegistryOp>
  {
    if faults.connectFails then []
    else [DeleteSchedule(ScheduleId)] + TerminateRunningOps(execs, faults) + [CreateSchedule(ScheduleId, PollSchedule(config))]
  }

  /** The requests go strictly in the order delete, list, terminate,
      create, and the create request is made whatever happened before it. */
  lemma SetupOrder(execs: seq<Execution>, config: Config, faults: Faults)
    requires !faults.connectFails
    ensures var ops := SetupOps(execs, config, faults);
      && |ops| >= 3
      && ops[0] == DeleteSchedule(ScheduleId)
      && ops[1] == ListExecutions(RunningPollsQuery)
      && ops[|ops| - 1] == CreateSchedule(ScheduleId, PollSchedule(config))
      && forall i :: 2 <= i < |ops| - 1 ==> ops[i].TerminateExecution?
  {
  }

  /** Creation succeeds exactly when connecting and creating go through and
      no schedule with the id survived the delete step. */
  lemma SetupOkIff(schedules: map<string, Schedule>, faults: Faults)
    ensures SetupResult(schedules, faults).Ok? <==>
      !faults.connectFails && !faults.createFails && (ScheduleId !in schedules || !faults.deleteFails)
  {
  }

  /** When the delete succeeds or nothing existed (and nothing else
      fails), the result is every other schedule as it was plus the polling
      schedule. */
  lemma SetupInstalls(schedules: map<string, Schedule>, config: Config, faults: Faults)
    requires !faults.connectFails && !faults.createFails
    requires !faults.deleteFails || ScheduleId !in schedules
    ensures SetupResult(schedules, faults) == Ok(())
    ensures SetupSchedules(schedules, config, faults) == schedules[ScheduleId := PollSchedule(config)]
  {
    assert (schedules - {ScheduleId})[ScheduleId := PollSchedule(config)] == schedules[ScheduleId := PollSchedule(config)];
  }

  /** Running the start-up again changes nothing: the registry still holds
      exactly one polling schedule, with the same configuration. */
  lemma SetupIdempotent(schedules: map<string, Schedule>, config: Config)
    ensures SetupSchedules(SetupSchedules(schedules, config, NoFaults), config, NoFaults)
         == SetupSchedules(schedules, config, NoFaults)
    ensures SetupSchedules(schedules, config, NoFaults)[ScheduleId] == PollSchedule(config)
  {
    SetupInstalls(schedules, config, NoFaults);
    var once := SetupSchedules(schedules, config, NoFaults);
    SetupInstalls(once, config, NoFaults);
    assert once[ScheduleId := PollSchedule(config)] == once;
  }

  /** Without listing or termination errors, no polling execution is left
      running, and executions of other workflows are not touched. */
  lemma {:induction false} NoPollLeftRunning(execs: seq<Execution>)
    ensures var after := TerminateAll(execs, Terminated(execs, NoFaults));
      && (forall e :: e in after && e.workflowType == PollWorkflowType ==> !e.running)
      && (forall i :: 0 <= i < |execs| && execs[i].workflowId !in RunningPolls(execs) ==> after[i] == execs[i])
  {
    var after := TerminateAll(execs, Terminated(execs, NoFaults));
    TerminateAllEffect(execs, Terminated(execs, NoFaults));
    forall e | e in after && e.workflowType == PollWorkflowType
      ensures !e.running
    {
      var i :| 0 <= i < |after| && after[i] == e;
      if execs[i].running {
        assert execs[i] in execs;
      }
    }
  }

  /** The Temporal namespace: schedules by id, workflow executions, and the
      requests made so far. */
  class TemporalNamespace {
    var schedules: map<string, Schedule>
    var executions: seq<Execution>
    var ops: seq<RegistryOp>

    constructor (schedules0: map<string, Schedule>, executions0: seq<Execution>)
      ensures schedules == schedules0 && executions == executions0 && ops == []
    {
      schedules := schedules0;
      executions := executions0;
      ops := [];
    }

    /** Deleting the old schedule; a missing schedule and any other error
        are both ignored. */
    method DeleteOldSchedule(faults: Faults)
      modifies this
      ensures schedules == AfterDelete(old(schedules), faults)
      ensures executions == old(executions)
      ensures ops == old(ops) + [DeleteSchedule(ScheduleId)]
    {
      ops := ops + [DeleteSchedule(ScheduleId)];
      if !faults.deleteFails {
        schedules := schedules - {ScheduleId};
      }
    }

    /** Creating the polling schedule: it fails if a schedule with the id
        still exists or the request fails. */
    method CreatePollSchedule(config: Config, faults: Faults) returns (r: Result<(), SetupError>)
      requires !faults.connectFails
      modifies this
      ensures r == CreateResult(old(schedules), faults)
      ensures schedules == CreateSchedules(old(schedules), config, faults)
      ensures executions == old(executions)
      ensures ops == old(ops) + [CreateSchedule(ScheduleId, PollSchedule(config))]
    {
      var everySeconds := if config.pollIntervalMs / 1000 > 5 then config.pollIntervalMs / 1000 else 5;
      var schedule := Schedule(IntervalText(everySeconds), PollWorkflowType, config.taskQueue, [], Skip, false);
      ops := ops + [CreateSchedule(ScheduleId, schedule)];
      if ScheduleId in schedules {
        return Err(ScheduleExists);
      }
      if faults.createFails {
        return Err(CreateFailed);
      }
      schedules := schedules[ScheduleId := schedule];
      r := Ok(());
    }

    /** The listing and the `for await` loop that terminates each running
        polling execution; the first error ends the loop. */
    method TerminateRunning(faults: Faults)
      requires !faults.connectFails
      modifies this
      ensures schedules == old(schedules)
      ensures executions == TerminateAll(old(executions), Terminated(old(executions), faults))
      ensures ops == old(ops) + TerminateRunningOps(old(executions), faults)
    {
      ghost var ops0 := ops;
      ops := ops + [ListExecutions(RunningPollsQuery)];
      if faults.listFails {
        TerminateRunningOpsAfter(ops0, executions, faults, []);
        return;
      }
      var running := RunningPolls(executions);
      ghost var execs0 := executions;
      var j := 0;
      while j < |running|
        invariant 0 <= j <= |running|
        invariant faults.terminateFailsAt.Some? ==> faults.terminateFailsAt.value >= j
        invariant executions == TerminateAll(execs0, running[..j])
        invariant ops == ops0 + [ListExecutions(RunningPollsQuery)] + TerminateOps(running[..j])
        invariant schedules == old(schedules)
      {
        TerminateOpsSnoc(running, j);
        TerminateAllSnoc(execs0, running, j);
        ops := ops + [TerminateExecution(running[j])];
        if faults.terminateFailsAt == Some(j) {
          assert Terminated(execs0, faults) == running[..j];
          TerminateRunningOpsAfter(ops0, execs0, faults, running[..j + 1]);
          return;
        }
        executions := TerminateOne(executions, running[j]);
        j := j + 1;
      }
      assert running[..|running|] == running;
      assert Terminated(execs0, faults) == running;
      TerminateRunningOpsAfter(ops0, execs0, faults, running);
    }

    /** `ensurePollingSchedule()`: delete the old schedule ignoring any
        error, terminate the running polling workflows (a listing or
        termination error is only warned about), then create the schedule;
        a failing connection or creation rejects. */
    method EnsurePollingSchedule(config: Config, faults: Faults) returns (r: Result<(), SetupError>)
      modifies this
      ensures r == SetupResult(old(schedules), faults)
      ensures schedules == SetupSchedules(old(schedules), config, faults)
      ensures executions == TerminateAll(old(executions), Terminated(old(executions), faults))
      ensures ops == old(ops) + SetupOps(old(executions), config, faults)
    {
      if faults.connectFails {
        return Err(ConnectFailed);
      }
      DeleteOldSchedule(faults);
      TerminateRunning(faults);
      r := CreatePollSchedule(config, faults);
    }
  }

  /** The state the process ends up in. */
  datatype ProcessState = Listening(port: JsValue) | Exited(code: int)

  /** `main()` and its `.catch`: the schedule is set up first; if that
      rejects the process exits with code 1 and never listens, otherwise
      the health server listens on `PORT || 4000`. */
  method Startup(ns: TemporalNamespace, config: Config, faults: Faults, portEnv: JsValue) returns (state: ProcessState)
    modifies ns
    ensures state.Exited? <==> SetupResult(old(ns.schedules), faults).Err?
    ensures state.Exited? ==> state.code == 1
    ensures state.Listening? ==> state.port == OrDefault(portEnv, Num(DefaultPort))
    ensures ns.schedules == SetupSchedules(old(ns.schedules), config, faults)
  {
    var setup := ns.EnsurePollingSchedule(config, faults);
    if setup.Err? {
      return Exited(1);
    }
    var port := if Truthy(portEnv) then portEnv else Num(DefaultPort);
    state := Listening(port);
  }
}
