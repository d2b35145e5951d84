# PlantPal backend: a verified model of its core logic

This project models in Dafny the logic at the centre of the PlantPal
backend (a set of Node.js services for plant-care reminders) and proves
properties of it. It covers:

- **Reminder delivery.** This is the scheduler service:
  - the Temporal workflows `SendReminderWorkflow` and
    `PollDueRemindersWorkflow`, with the activity retry policy (at most
    5 attempts, a 2 s initial interval, a 2-minute start-to-close timeout);
  - the cron path `pollAndProcessReminders`;
  - the activities that list due reminders, resolve the destination phone
    number and build the notification payload;
  - the start-up routine that replaces the polling schedule.
- **The notification Lambda.** It checks the required fields, renders the
  message and normalises addresses for WhatsApp.
- **Login lockout.** The login service keeps two in-place maps of failed
  attempts and lock expiry. Five failures lock an account for five
  minutes. The module also covers `register`.
- **The rate-limiter key.** The `Forwarded` header's `for=` value
  (section 5.2 of RFC 7239) is read exactly as the JavaScript regular
  expression's backtracking reads it. The fallbacks are the first
  `X-Forwarded-For` hop and then the socket address.
- **Bearer authentication.** This is the user-plants middleware: the token
  of `Authorization: Bearer <token>` (section 2.1 of RFC 6750, matched
  case-sensitively) is verified, and the caller is stored on the request.
- **The data layer of three services** (reminder, user-plants, proxy):
  - the ownership check and its error mapping;
  - the search arguments;
  - the in-place builder of a partial UPDATE (`fields`, `values` and the
    counter `i`), proved to number placeholders from `$2` consistently
    with `params = [id, ...values]`;
  - the order of the BEGIN/COMMIT/ROLLBACK/release statements of the
    update and delete transactions;
  - the SQL text of `dynamicUpdate`.
- **The zod request schemas** of the login, user and proxy services, with
  zod's order of issues: every field is checked, and a type failure
  skips the `refine`.

Every remote party is an input:

- HTTP services, the database, the Lambda and Twilio;
- the Temporal server;
- `jwt.verify` and `jwt.sign`, bcrypt;
- zod's e-mail pattern;
- the clock.

A cancellation signal is a flag saying whether it arrived before a given
checkpoint. Strings are sequences of UTF-16 code units.

Modules follow the source files: one module per file, plus `Wrappers`
(Option/Result), `JsText` (the JavaScript string and value semantics the
source relies on), `PgTx` (the code the three `db/tx.js` files share) and
`Validation` (what the three schema files share).

## Model

| member | source | states |
|---|---|---|
| JsText.OrDefault | notification-service/src/handler.js:42 | `v \|\| d` yields `v` exactly when `v` is truthy, else the default |
| JsText.TrimShape | scheduler-service/src/activities.ts:117 | `trim()` removes white space at both ends only: the result is a contiguous slice with no outer white space, and everything cut off is white space |
| JsText.TrimEmptyIff | scheduler-service/src/activities.ts:93 | `s.trim()` is empty (falsy) exactly when `s` has no non-space character |
| JsText.TrimIdempotent | scheduler-service/src/activities.ts:117 | trimming twice is trimming once |
| JsText.TrimNoOuterSpace | scheduler-service/src/activities.ts:117 | a string with no white space at either end trims to itself |
| JsText.TrimPadded | login-service/src/validations/loginSchemas.js:15-18 | a value without outer white space, padded with a space on each side, trims back to itself |
| JsText.DecimalRoundTrip | reminder-service/db/tx.js:183 | the decimal text written for a placeholder number reads back as that number |
| JsText.Decimal | reminder-service/db/tx.js:183 | the text of a number in a template literal: digits only, with no leading zero |
| JsText.Join | notification-service/src/handler.js:42 | `join`: the empty list gives the empty string, one part gives that part |
| JsText.BeforeFirst | login-service/src/middlewares/rateLimiter.js:29 | `split(',')[0]`: the longest comma-free prefix, stopping at the first comma |
| NotificationHandler.Normalize | notification-service/src/handler.js:18-22 | on the WhatsApp channel the address gains `whatsapp:` exactly when it lacks it; other channels leave it unchanged |
| NotificationHandler.NormalizeIdempotent | notification-service/src/handler.js:18-22 | normalising twice is normalising once |
| NotificationHandler.MissingFrom | notification-service/src/handler.js:40 | the missing keys are exactly the required keys with falsy values, in the required order |
| NotificationHandler.NothingMissing | notification-service/src/handler.js:39-40 | an event whose six required properties are truthy has nothing missing |
| NotificationHandler.NoteLineIffTruthy | notification-service/src/handler.js:29-34 | the body carries the note line exactly when `notes` is truthy, and is otherwise the body without notes |
| NotificationHandler.NormalizeValue | notification-service/src/handler.js:18-22 | a non-string on the WhatsApp channel throws V8's TypeError: `Cannot read properties of undefined (reading 'startsWith')` for `undefined`, the `null` form for `null`, and `num.startsWith is not a function` for any other value; a string is normalised; other channels pass the value through |
| NotificationHandler.Handle | notification-service/src/handler.js:15-65 | missing fields give `Missing fields: ` plus the comma-joined list and `messageId \|\| null`, with no send; on the WhatsApp channel an unset TWILIO_FROM or a non-string `to` makes the Lambda reject with the TypeError, and a `tz` that is not a known time zone makes it reject with the RangeError of `toLocaleString`, in both cases with no send; otherwise the gateway gets the normalised addresses and the formatted body; success echoes the original `to` and `messageId`, and a gateway error is returned, not thrown |
| Activities.ReminderTitle | scheduler-service/src/workflows.js:31 | `name ?? "Reminder"`: the fallback only for a missing name |
| Activities.ListDueReminders | scheduler-service/src/activities.ts:37-84 | the `reminders` array unchanged when the body has one, `[]` for any other body, transport errors rethrown |
| Activities.ListDueIgnoresStatus | scheduler-service/src/activities.ts:41 | the HTTP status never changes the result |
| Activities.ResolveTargetNumber | scheduler-service/src/activities.ts:88-99 | a proxy reminder whose proxy has a non-space character yields the untrimmed proxy; every other case yields the user service's `phone_number`, which may be missing, or its error |
| Activities.ProxyNeedsNoLookup | scheduler-service/src/activities.ts:93 | with a usable proxy, the user service's answer is irrelevant |
| Activities.E164Shape | scheduler-service/src/activities.ts:117-121 | every formatted destination starts with `+` and has no outer white space |
| Activities.E164Idempotent | scheduler-service/src/activities.ts:117-121 | formatting a formatted destination leaves it unchanged |
| Activities.E164LocalExample | scheduler-service/src/activities.ts:120 | `91234567` becomes `+6591234567` |
| Activities.TrimPaddedExample | scheduler-service/src/activities.ts:117 | ` 6598765432 ` trims to `6598765432` |
| Activities.E164CountryCodeExample | scheduler-service/src/activities.ts:119 | a padded number starting with `65` gains only `+` |
| Activities.PayloadFor | scheduler-service/src/activities.ts:123-132 | channel `sms`, zone `Asia/Singapore`, the formatted destination, and the defaults `Unnamed Reminder`, `Reminder` and `No notes provided` exactly when title or body is empty or missing |
| Activities.PayloadAccepted | scheduler-service/src/activities.ts:123-132 | every payload the scheduler builds passes the Lambda's required-field check |
| Activities.SendNotification | scheduler-service/src/activities.ts:111-156 | the step-by-step `formattedTo` rewrite yields the payload of `PayloadFor`; the Lambda's result is returned as is; an invocation error is rethrown; an undefined destination throws the TypeError of `to.trim()` before any payload is built |
| Workflows.AttemptResult | scheduler-service/src/workflows.js:14 | an attempt succeeds exactly when it produced a value within the 2-minute start-to-close timeout |
| Workflows.RetryFrom | scheduler-service/src/workflows.js:13-16 | retrying stops at the first successful attempt; all earlier ones failed; a failure is reported only after the maximum number of attempts |
| Workflows.RunActivityOkIff | scheduler-service/src/workflows.js:13-16 | an activity succeeds exactly when one of its allowed attempts does |
| Workflows.ActivityAttemptsBounded | scheduler-service/src/workflows.js:15 | no activity is attempted more than 5 times |
| Workflows.RetryDelayMs | scheduler-service/src/workflows.js:15 | each retry wait lies between the initial interval and 100 times it |
| Workflows.ActivityBackoffSchedule | scheduler-service/src/workflows.js:13-16 | the waits are 2, 4, 8 and 16 s (30 s in total); the configured budget is five attempts of at most 2 minutes each |
| Workflows.RunTimeBound | scheduler-service/src/workflows.js:13-16 | the first `n` attempts, each charged at most the start-to-close timeout, take at most `n` times that timeout |
| Workflows.ActivityRunTimeBounded | scheduler-service/src/workflows.js:13-16 | whatever the attempts do, the attempts an activity call actually makes take at most 10 minutes of run time in total, and the waits between them at most 30 s |
| Workflows.UndefinedDestinationFails | scheduler-service/src/activities.ts:117 | with an undefined destination every attempt of `sendNotification` throws, so the activity fails with the TypeError after all five attempts |
| Workflows.SendReminderWorkflow | scheduler-service/src/workflows.js:19-33 | cancelled at the start: no activity; cancelled while resolving: resolve but no send; otherwise send gets exactly the resolved phone, the `?? "Reminder"` title and the notes; no third activity; the outcome is `Cancelled` exactly in those two cases, and a failed resolve or send fails the workflow with that activity's error; a resolved phone that is missing fails the workflow with the TypeError |
| Workflows.ChildWorkflowIdInjective | scheduler-service/src/workflows.js:44 | `send-<id>` ids are equal exactly when the reminder ids are |
| Workflows.StartCallsShape | scheduler-service/src/workflows.js:43-52 | children start in list order under `send-<id>`; a start that throws ends the batch |
| Workflows.StartChildren | scheduler-service/src/workflows.js:43-52 | the `for` loop makes exactly those start calls |
| Workflows.PollEffectsShape | scheduler-service/src/workflows.js:40-57 | every listing uses the 60 s window, every child its `send-<id>`, every pause is 30 s, and any run of iterations ends with a pause, failed or not |
| Workflows.RoundsRun | scheduler-service/src/workflows.js:40 | the loop runs until the iteration during which `cancel` first arrives, and not at all if it came first |
| Workflows.RoundsRunUnique | scheduler-service/src/workflows.js:40-57 | the number of iterations is fixed by where `cancel` first arrives |
| Workflows.PollOnce | scheduler-service/src/workflows.js:41-56 | one iteration of the loop body has the effects `RoundEffects` specifies: the listing, the children of a successful listing, then the pause |
| Workflows.PollDueRemindersWorkflow | scheduler-service/src/workflows.js:35-58 | the `while (!cancelled)` loop produces the effects of exactly those iterations, and exits exactly when `cancel` arrived |
| Scheduler.ProcessReminder | scheduler-service/src/scheduler.ts:7-30 | resolve first; the Lambda is invoked exactly when resolve yields a phone, with the payload for that phone; a missing phone is the caught TypeError; every error is caught, so the promise always fulfils |
| Scheduler.ProcessAll | scheduler-service/src/scheduler.ts:51-53 | each reminder is processed once, in its own environment |
| Scheduler.TallyPartition | scheduler-service/src/scheduler.ts:56-57 | every result counts as fulfilled or rejected, never both |
| Scheduler.PollAndProcessReminders | scheduler-service/src/scheduler.ts:35-66 | asks for `DUE_WINDOW_SEC`; a listing error is caught; an empty list stops there; the reminders are processed exactly when the list is non-empty, and then `succeeded` is the list length and `failed` is 0 |
| Scheduler.NothingDueMakesNoCalls | scheduler-service/src/scheduler.ts:41-44 | an empty due list makes no resolve or send call |
| Scheduler.TallyAllSucceeded | scheduler-service/src/scheduler.ts:51-57 | `succeeded` is the list length and `failed` is 0 |
| Scheduler.FailureIsolated | scheduler-service/src/scheduler.ts:26-29 | whatever happens to one reminder, every other reminder is processed the same way |
| Scheduler.ResolveBeforeSend | scheduler-service/src/scheduler.ts:12-23 | for every reminder resolve comes first, and send happens exactly when resolve yielded a phone |
| Scheduler.CallsBounded | scheduler-service/src/scheduler.ts:12-23 | a poll makes between one and two activity calls per reminder |
| ScheduleServer.EverySeconds | scheduler-service/src/server.ts:30 | `max(5, floor(ms / 1000))`: never below 5 seconds |
| ScheduleServer.EverySecondsExamples | scheduler-service/src/server.ts:30 | below 6000 ms the interval is 5 s; the 30000 ms default gives 30 s |
| ScheduleServer.IntervalTextReadsBack | scheduler-service/src/server.ts:76 | `${everySeconds}s` reads back as the number of seconds |
| ScheduleServer.PollSchedule | scheduler-service/src/server.ts:72-86 | the schedule starts `PollDueRemindersWorkflow` on its task queue with no arguments, overlap SKIP, unpaused, every `everySeconds` |
| ScheduleServer.RunningPolls | scheduler-service/src/server.ts:51-53 | the listing returns exactly the ids of the running executions of `PollDueRemindersWorkflow` |
| ScheduleServer.TerminateOne | scheduler-service/src/server.ts:57-61 | termination stops the named execution and leaves the others |
| ScheduleServer.TerminateAll | scheduler-service/src/server.ts:55-62 | terminations change the state of executions, never their number |
| ScheduleServer.TerminateAllEffect | scheduler-service/src/server.ts:55-62 | terminating a list stops exactly the executions whose id is listed, whatever the order, and leaves the others as they were |
| ScheduleServer.TerminateOps | scheduler-service/src/server.ts:55-62 | one termination request per listed id, in order |
| ScheduleServer.SetupOrder | scheduler-service/src/server.ts:33-86 | requests go delete, list, terminations, create, and create is always attempted |
| ScheduleServer.SetupOkIff | scheduler-service/src/server.ts:33-86 | set-up succeeds exactly when connecting and creating succeed and no old schedule survived the delete |
| ScheduleServer.SetupInstalls | scheduler-service/src/server.ts:72-86 | when the delete succeeds or nothing existed, the result is the other schedules unchanged plus the polling schedule |
| ScheduleServer.SetupIdempotent | scheduler-service/src/server.ts:33-86 | running the set-up again leaves the same single polling schedule |
| ScheduleServer.NoPollLeftRunning | scheduler-service/src/server.ts:43-68 | without listing errors, no polling execution stays running and other executions are untouched |
| ScheduleServer.TemporalNamespace.DeleteOldSchedule | scheduler-service/src/server.ts:33-41 | the delete request is logged and any error is ignored |
| ScheduleServer.TemporalNamespace.CreatePollSchedule | scheduler-service/src/server.ts:72-86 | creation fails if the id exists or the request fails, and otherwise installs the polling schedule |
| ScheduleServer.TemporalNamespace.TerminateRunning | scheduler-service/src/server.ts:43-68 | the `for await` loop terminates the listed executions; errors are only warned |
| ScheduleServer.TemporalNamespace.EnsurePollingSchedule | scheduler-service/src/server.ts:9-89 | the in-place run has the result, schedules, executions and requests of the set-up functions |
| ScheduleServer.TemporalNamespace.constructor | scheduler-service/src/server.ts:9-29 | the namespace holds the given schedules and executions, with no request made |
| ScheduleServer.Startup | scheduler-service/src/server.ts:94-111 | a failed set-up exits with code 1 before listening; otherwise the server listens on `PORT \|\| 4000` |
| AuthService.CeilDiv | login-service/src/services/authService.js:22 | `Math.ceil(d / q)` |
| AuthService.LockedRejects | login-service/src/services/authService.js:19-27 | while locked: 429 with the whole seconds left (at least 1), no use of the user service, bcrypt or jwt, and neither map changes |
| AuthService.ExpiredLockDropped | login-service/src/services/authService.js:27-30 | an expired lock is removed and the attempt proceeds as if unlocked |
| AuthService.UnknownUserLikeWrongPassword | login-service/src/services/authService.js:34-46 | an unknown e-mail and a wrong password give the same 401 and the same counted failure |
| AuthService.FailureCounting | login-service/src/services/authService.js:113-123 | a failure adds one to the count; the fifth locks until `now + 300000` and removes the count |
| AuthService.LoginPreservesValid | login-service/src/services/authService.js:113-123 | between calls every stored count stays between 1 and 4 |
| AuthService.LoginIsLocal | login-service/src/services/authService.js:16-70 | only the entries of the given e-mail change |
| AuthService.SuccessResets | login-service/src/services/authService.js:48-65 | success removes both entries and returns 200 with the token and the user summary |
| AuthService.FailuresBelowLimit | login-service/src/services/authService.js:113-122 | up to four consecutive failures are counted one by one and lock nothing |
| AuthService.FiveFailuresLock | login-service/src/services/authService.js:117-120 | five consecutive failures lock the account for five minutes from the fifth and leave no count |
| AuthService.FailLoginsSplit | login-service/src/services/authService.js:113-122 | a run of failures can be split into two consecutive runs |
| AuthService.LoginService.TrackFailedAttempt | login-service/src/services/authService.js:113-123 | the in-place maps change as `TrackFailed` says |
| AuthService.LoginService.constructor | login-service/src/services/authService.js:9-10 | both maps start empty |
| AuthService.LoginService.Login | login-service/src/services/authService.js:16-70 | the in-place maps and the response are those of `LoginStep`, and the count invariant holds |
| AuthService.Register | login-service/src/services/authService.js:75-108 | an existing e-mail gives 409 with no creation; success gives 201 with the token after one lookup and one creation; every error gives 500 `Registration failed`; `createUser` is called exactly when nobody has the e-mail and hashing did not throw |
| RateLimiter.RunLength | login-service/src/middlewares/rateLimiter.js:24 | `[^;\s,\]]+` is greedy: the longest run of value characters |
| RateLimiter.Candidates | login-service/src/middlewares/rateLimiter.js:24 | the backtracking tries quote-then-bracket first and the bare position last, never more than two characters on |
| RateLimiter.FirstNonEmpty | login-service/src/middlewares/rateLimiter.js:24 | the first tried position with a non-empty value, or none |
| RateLimiter.CaptureAtSucceedsIff | login-service/src/middlewares/rateLimiter.js:24 | a `for=` matches exactly when the next character is a value character |
| RateLimiter.CaptureShape | login-service/src/middlewares/rateLimiter.js:24 | the captured value is a maximal non-empty run of value characters, after at most a quote and a bracket |
| RateLimiter.FirstMatch | login-service/src/middlewares/rateLimiter.js:24 | `exec` returns the first position where the whole expression matches, and no earlier position matches |
| RateLimiter.NoMatchFrom | login-service/src/middlewares/rateLimiter.js:24 | when `exec` returns `null`, the expression matches at no position |
| RateLimiter.KeyGenerator | login-service/src/middlewares/rateLimiter.js:19-32 | the `Forwarded` capture, else the first `X-Forwarded-For` hop trimmed, else `req.ip` |
| RateLimiter.ForwardedTakesPrecedence | login-service/src/middlewares/rateLimiter.js:21-26 | a `Forwarded` match makes `X-Forwarded-For` and the socket address irrelevant |
| RateLimiter.XffKeyIsFirstHop | login-service/src/middlewares/rateLimiter.js:27-30 | the key has no comma and no outer white space, and the header starts with it apart from white space |
| RateLimiter.ForwardedAtStart | login-service/src/middlewares/rateLimiter.js:24 | a header starting with a successful `for=` keys on that value |
| RateLimiter.PlainForExample | login-service/src/middlewares/rateLimiter.js:24 | `for=192.0.2.60;proto=http;by=203.0.113.43` keys on `192.0.2.60` |
| RateLimiter.QuotedIpv6Example | login-service/src/middlewares/rateLimiter.js:24 | `For="[2001:db8:cafe::17]:4711"` keys on the bare IPv6 address |
| RateLimiter.QuotedPortKeepsQuoteExample | login-service/src/middlewares/rateLimiter.js:24 | `for="192.0.2.60:47"` keys on `192.0.2.60:47"`, closing quote included |
| RateLimiter.LoneQuoteExample | login-service/src/middlewares/rateLimiter.js:24 | `for=";by=x` keys on the quote itself |
| PlantsAuth.BearerToken | user-plants-service/middlewares/auth.js:11-12 | a token exists exactly when the header starts with `Bearer `, and the header is that prefix plus the token |
| PlantsAuth.BearerRoundTrip | user-plants-service/middlewares/auth.js:12 | `Bearer ` plus any token extracts that token |
| PlantsAuth.LowerCaseSchemeRefused | user-plants-service/middlewares/auth.js:12 | `bearer ` is not accepted |
| PlantsAuth.Authenticate | user-plants-service/middlewares/auth.js:11-22 | a caller exists exactly when the token is non-empty and verifies, and is then the payload's id, email and role |
| PlantsAuth.AuthenticatedHeader | user-plants-service/middlewares/auth.js:11-16 | only `Bearer <non-empty verified token>` authenticates |
| PlantsAuth.Exchange.RequireAuth | user-plants-service/middlewares/auth.js:10-27 | success sets `req.user` and calls `next` once; otherwise 401 `Unauthorized`, `req.user` untouched, no `next` |
| PlantsAuth.Exchange.RequireAuthTest | user-plants-service/middlewares/auth.js:31-34 | the fixed user without e-mail, and `next` once |
| PlantsAuth.Exchange.constructor | user-plants-service/middlewares/auth.js:10 | a request starts with no user, no response and no `next` call |
| PgTx.IsEligible | reminder-service/db/tx.js:15-25 | a failed query and an empty answer both become `ForbiddenError`; otherwise the first row's flag |
| PgTx.EligibilityArgs | reminder-service/db/tx.js:18 | the check binds `[id, userID]` |
| PgTx.SearchPattern | user-plants-service/db/tx.js:173 | `null` exactly for a missing or empty value; otherwise `%v%`, from which `v` is recovered |
| PgTx.SearchArgs | user-plants-service/db/tx.js:172-175 | the search binds `[pattern, userID, limit, offset]` |
| PgTx.Search | user-plants-service/db/tx.js:169-187 | rows exactly when non-empty; an empty answer is `NotFoundError`; driver errors are rethrown |
| PgTx.TrailingDigits | reminder-service/db/tx.js:183 | the longest run of digits ending the text |
| PgTx.PlaceholderRoundTrip | reminder-service/db/tx.js:183 | the placeholder read back from `col = $k` is `k` |
| PgTx.Defined | reminder-service/db/tx.js:187-194 | the `!== undefined` guards keep the defined candidates in order, and none exactly when all are undefined |
| PgTx.DefinedAppend | reminder-service/db/tx.js:187-194 | filtering a concatenation filters each part |
| PgTx.DistinctColumnsKept | user-plants-service/db/tx.js:211-213 | candidates with distinct columns assign no column twice |
| PgTx.Params | reminder-service/db/tx.js:201 | `params = [id, ...values]` |
| PgTx.Fragments | reminder-service/db/tx.js:182-185 | one `column = $k` fragment per pushed column |
| PgTx.FragmentBinding | reminder-service/db/tx.js:182-185 | fragment `k` names `$k+2`, and parameter `k+1` is its value |
| PgTx.BindingConsistent | reminder-service/db/tx.js:182-201 | `$1` is the id and every fragment's placeholder, read back from its text, holds that fragment's value |
| PgTx.UpdateBuilder.Push | reminder-service/db/tx.js:182-185 | `++i`, then one fragment and one value appended; the counter stays one ahead and the arrays aligned |
| PgTx.UpdateBuilder.constructor | reminder-service/db/tx.js:177-179 | `fields` and `values` start empty with `i = 1`, so the first push takes `$2` |
| PgTx.UpdateBuilder.PushDefined | reminder-service/db/tx.js:187 | a defined candidate is pushed and an undefined one skipped |
| PgTx.DefinedSnoc | reminder-service/db/tx.js:187-194 | one more guard extends the columns and values by its own |
| PgTx.BuildUpdate | reminder-service/db/tx.js:177-194 | the pushes give the fragments numbered from `$2` of the defined columns and their values |
| PgTx.Failed | reminder-service/db/tx.js:211-216 | on error, ROLLBACK and release follow and the error is rethrown |
| PgTx.UpdateTransaction | reminder-service/db/tx.js:172-216 | the check comes first; refusal gives `Forbidden` even for an empty update; an empty update returns `null` without BEGIN; BEGIN then the UPDATE with `[id, ...values]`; zero rows gives exactly `NoAffectedRowError` after BEGIN and the UPDATE, then ROLLBACK; a thrown UPDATE is rethrown after ROLLBACK; COMMIT exactly when rows changed; release always last |
| PgTx.DeleteTransaction | reminder-service/db/tx.js:225-245 | a failed check is `Forbidden`, `false` is `Not Elligible`, zero rows is the not-found error, a thrown DELETE is rethrown; COMMIT exactly on success, ROLLBACK exactly on error |
| ReminderTx.IsActiveAssignedTwice | reminder-service/db/tx.js:189-190 | as written, a defined `isActive` gives two consecutive `is_active` assignments with consecutive placeholders bound to the same value |
| ReminderTx.IsActiveOnlyExample | reminder-service/db/tx.js:189-190 | `{ isActive: false }` alone assigns `is_active` twice |
| ReminderTx.NoColumnRepeats | reminder-service/db/tx.js:187-194 | the corrected pushes assign no column twice |
| ReminderTx.UpdateReminder | reminder-service/db/tx.js:161-217 | the builder over the corrected candidate list (`Candidates`, which pushes `is_active` once, not twice as lines 189-190 do), then the update transaction; an empty update returns `null`; a non-owner gets `Forbidden`; zero rows is `NoAffectedRowError` and a thrown UPDATE is rethrown, both with ROLLBACK and no COMMIT |
| ReminderTx.DeleteReminder | reminder-service/db/tx.js:225-245 | `Soft delete failed, not found ` exactly on zero rows after a passed check; success exactly when rows were deleted |
| ReminderTx.GetRemindersDueSoon | reminder-service/db/tx.js:144-149 | `rows \|\| []`: a successful call always yields an array; errors are rethrown |
| UserPlantsTx.NoColumnRepeats | user-plants-service/db/tx.js:211-213 | `s3_id`, `name`, `notes` are each assigned at most once |
| UserPlantsTx.UpdateUserPlants | user-plants-service/db/tx.js:195-236 | the builder over `s3_id`, `name`, `notes`, then the update transaction; an empty update by the owner returns `null` without BEGIN, by anyone else `Forbidden`; zero rows is `NoAffectedRowError` and a thrown UPDATE is rethrown, both with ROLLBACK and no COMMIT |
| UserPlantsTx.SearchUserPlants | user-plants-service/db/tx.js:169-187 | the search binds `[pattern, userID, limit, offset]`; the pattern is `%v%` for a non-empty value and `null` otherwise; rows are returned exactly when the answer is non-empty, and an empty answer is `NotFoundError` |
| UserPlantsTx.DeleteUserPlant | user-plants-service/db/tx.js:244-264 | `Soft delete failed, not found ` exactly on zero rows after a passed check |
| UserPlantsTx.GetS3Id | user-plants-service/db/tx.js:42-61 | the URL on success; `null` exactly for a 404; every other error is rethrown |
| ProxyTx.NoColumnRepeats | proxy-service/db/tx.js:177-180 | `name`, `start_date`, `end_date`, `phone_number` are each assigned at most once |
| ProxyTx.UpdateProxys | proxy-service/db/tx.js:162-203 | the builder over the four columns, then the update transaction; an empty update by the owner returns `null` without BEGIN, by anyone else `Forbidden`; zero rows is `NoAffectedRowError` and a thrown UPDATE is rethrown, both with ROLLBACK and no COMMIT |
| ProxyTx.SearchProxys | proxy-service/db/tx.js:142-160 | the search binds `[pattern, userID, limit, offset]`; the pattern is `%v%` for a non-empty value and `null` otherwise; rows are returned exactly when the answer is non-empty, and an empty answer is `NotFoundError` |
| ProxyTx.DeleteProxy | proxy-service/db/tx.js:205-225 | `Delete failed, not found ` exactly on zero rows after a passed check; COMMIT exactly on success |
| UserPlantsQuery.SetClause | user-plants-service/db/query.js:82-83 | the fragments joined by `, ` in order, then `updated_at = now()` |
| UserPlantsQuery.DynamicUpdate | user-plants-service/db/query.js:78-89 | the statement is the head, that SET list and the `WHERE id = $1 RETURNING` tail |
| UserPlantsQuery.WhereDisjointFromFragments | user-plants-service/db/query.js:85 | the WHERE clause uses `$1` only, and every fragment's placeholder is at least `$2` |
| UserPlantsQuery.SearchArgsMatchQuery | user-plants-service/db/query.js:53-67 | `$1` pattern, `$2` user id, `$3` limit, `$4` offset, as the search binds them |
| UserPlantsQuery.EligibilityArgsMatchQuery | user-plants-service/db/query.js:9-16 | `$1` id and `$2` user id, as the check binds them |
| Validation.Search | login-service/src/validations/loginSchemas.js:22 | an unanchored class test finds the first character in the class, or shows there is none |
| Validation.TestIff | login-service/src/validations/loginSchemas.js:22-25 | a class test succeeds exactly when some character is in the class |
| Validation.MatchWord | login-service/src/validations/loginSchemas.js:14 | `^[A-Za-z0-9_]+$`: non-empty and only word characters |
| Validation.MatchPhoneIff | login-service/src/validations/loginSchemas.js:18 | `^\+?[0-9]{8,15}$`: 8 to 15 digits, or a plus and 8 to 15 digits |
| Validation.PhoneHasNoOuterSpace | login-service/src/validations/loginSchemas.js:18 | an accepted phone number has no outer white space |
| Validation.ParseRole | login-service/src/validations/loginSchemas.js:26-28 | only `gardener` and `admin` are roles; anything else is `Invalid role type` |
| Validation.RoleRoundTrip | login-service/src/validations/loginSchemas.js:26 | a role's name parses back to the role |
| Validation.Check | login-service/src/validations/loginSchemas.js:5 | a failed check reports its one issue, a passed one nothing |
| LoginSchemas.ParseLogin | login-service/src/validations/loginSchemas.js:3-6 | accepted exactly when the trimmed e-mail is valid and the password is non-empty; the password is not trimmed; a rejection lists `Invalid email format` (first) when the e-mail fails and `Password is required` when the password is empty, in that order and nothing else |
| LoginSchemas.UsernameIssues | login-service/src/validations/loginSchemas.js:10-14 | no issue exactly when the trimmed username has at least 3 characters, all word characters |
| LoginSchemas.PasswordIssues | login-service/src/validations/loginSchemas.js:19-25 | no issue exactly when the password is strong; the upper-case and special-character messages appear exactly when those are missing |
| LoginSchemas.ParseRegister | login-service/src/validations/loginSchemas.js:8-29 | accepted exactly when all five rules hold; e-mail, username and phone trimmed, password not; otherwise every issue in field order |
| LoginSchemas.PaddedPhoneAccepted | login-service/src/validations/loginSchemas.js:15-18 | a valid phone number padded with spaces is accepted and comes out unpadded |
| UserSchemas.ParseCreateUser | user-service/src/validations/userSchemas.js:3-18 | accepted exactly when the five rules hold; e-mail and phone are not trimmed, the username is |
| UserSchemas.PaddedPhoneRefused | user-service/src/validations/userSchemas.js:9-11 | a phone number with a leading or trailing space is refused |
| UserSchemas.UsernameHasNoCharsetRule | user-service/src/validations/userSchemas.js:5-8 | punctuation in a username is accepted |
| ProxySchemas.DateIssues | proxy-service/schemas/proxys.schema.js:8-9 | no issue exactly for a valid date; an invalid date gives the one issue `Invalid date` on its path |
| ProxySchemas.ParseCreate | proxy-service/schemas/proxys.schema.js:6-13 | accepted exactly when the trimmed name is non-empty and both dates are valid; the result carries both dates and the trimmed name; the phone is only trimmed; a rejection lists the blank-name issue, then the `Invalid date` issue of each invalid date, in field order |
| ProxySchemas.ParseUpdate | proxy-service/schemas/proxys.schema.js:15-24 | accepted exactly when some key is present and the present dates are valid; an accepted update carries the trimmed strings and the given dates; an invalid date gives the `Invalid date` issues of both date fields, in order; no key gives `Provide at least one field to update` |
| ProxySchemas.NumberCheck | proxy-service/schemas/proxys.schema.js:43-44 | `NaN` aborts; an absent number takes the default; a number has no issue exactly when it is an integer in range |
| ProxySchemas.SearchValueIssues | proxy-service/schemas/proxys.schema.js:42 | a present search value needs a non-space character |
| ProxySchemas.ParseSearch | proxy-service/schemas/proxys.schema.js:41-50 | accepted exactly when a non-blank search value is given, `limit` is an integer in 1..40 or absent and `offset` an integer of at least 0 or absent; the issues are the search value's, then each number field's (its type failure or its range issues), then, unless a number was `NaN`, `No search was entered` when no search was given |
| ProxySchemas.NaNKeepsOtherFieldIssues | proxy-service/schemas/proxys.schema.js:43-44 | a `NaN` limit still lets the offset report its own range issue |
| ProxySchemas.ParsedSearch | proxy-service/schemas/proxys.schema.js:41-50 | the parsed search value is trimmed and non-empty, `limit` defaults to 20 within 1..40, `offset` defaults to 0 and is at least 0 |

## Left out

- Network and process I/O is not modelled: HTTP calls, the Lambda invocation, Twilio, Temporal's client and server, PostgreSQL, logging and `console.table`. Their answers are inputs.
- Temporal's runtime is not modelled: replay, determinism, signal delivery order, the execution of child workflows, and the schedule service's own timing.
- Workflows.PollDueRemindersWorkflow: only a finite prefix of iterations is given. A run that is never cancelled is described by its first `n` iterations, because the loop never terminates.
- Workflows.RetryFrom: every error is retried, as Temporal does by default. Non-retryable error types and jitter are not modelled.
- The clock is an input. This includes the two `Date.now()` readings in `login`, which the model takes as one instant, `toLocaleString` in `formatBody` (the rendered time, or the RangeError for an unknown `tz`, is an input), `toISOString`, and the `toFixed` timings.
- bcrypt, `jwt.sign` and `jwt.verify` are not modelled. Each is an input: a comparison outcome, a token, or a function from token to verification.
- zod's e-mail pattern is not modelled: `isEmail` stands for it. Coercion of raw query values is not modelled either: `z.coerce.date` arrives as valid or invalid, and `z.coerce.number` as `NaN` or a finite real, so `Infinity` is not modelled.
- Schema fields that are missing or not strings, where zod reports a type error, are not modelled. The schemas take string fields.
- Unicode beyond UTF-16 code units is not modelled, nor Unicode white space other than the characters `JsText.IsSpace` lists.
- express-rate-limit's counting (200 requests per 15 minutes) and its headers are not modelled. Only the key is.
- The failure of BEGIN, COMMIT, ROLLBACK or `pool.connect` itself is not modelled; the statements are recorded as sent.
- Activities.ResolveTargetNumber: a `phone_number` that is present but not a string (a number, say) is not modelled; a missing or null one is, as `None`, with the TypeError text for `undefined` in both cases.
- AuthService.LoginStep and AuthService.LoginService.Login: each `login` call is one atomic step. The source awaits the user lookup and the password comparison (authService.js:34 and :42) between the lock check and the map writes, so concurrent requests for one e-mail interleave: ten simultaneous wrong passwords all pass the lock check and are all compared, and a correct password in flight when the fifth failure lands deletes the new lock. `FiveFailuresLock` and `LockedRejects` hold for sequential calls only.
- The debug full-table query that `getRemindersDueSoon` logs before the real query is not modelled.
- The SQL of the reminder and proxy services is not part of this model: their `query.js` files are not included. Their statements are recorded as fragments and parameters.
- SQL white space is normalised to single spaces in `UserPlantsQuery`.
- `createReminder`, `createUserPlant`, `createProxy` and the `get...ByID`/`getAll...` readers are not modelled. They are straight inserts and selects with no logic beyond the shared patterns.
- The multipart form that `getS3ID` builds is not modelled. Only its reply mapping is.
- The `apiKey` and TLS connection options of `ensurePollingSchedule` are not modelled. Connecting is an input that may fail.

## Findings

| source | as written | input that shows it | evidently intended | confidence | as-written member | corrected member |
|---|---|---|---|---|---|---|
| reminder-service/db/tx.js:189-190 | `is_active` is pushed twice when `isActive` is defined | `updateReminder({ id, userID, isActive: false })` pushes the fragments `is_active = $2` and `is_active = $3`, so any SET list built from `fields` assigns the column twice, which PostgreSQL rejects with "multiple assignments to same column" | one `is_active` assignment | high; not executed | ReminderTx.IsActiveAssignedTwice | ReminderTx.NoColumnRepeats |
