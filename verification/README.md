# Deploy engine: model and proofs

A Dafny model of the concurrent core of the Trangly deploy server, and proofs about it:

- **The job lifecycle.** The job table, the queue manager with its state graph, the scheduler's tick, the
  monitor that fails held and stuck jobs, the runner that takes a job through its stages, and the
  supervisor that tracks goroutines. The actors appear twice: as classes with the loops and writes of the
  source (`Queue`, `Scheduling`, `Runner`, `Supervision`), and as a transition system over all their
  interleavings, with crashes, restarts, project deletion, user cancels and failing database writes
  (`System`). An inductive invariant (`SystemInvariant`) carries the theorems about every run
  (`SystemTheorems`), and `SystemLimits` states the limits in terms of what a tick read and which
  events happened; `TickRun` shows that the tick of the class is a run of the system; `Ticks` says what
  one tick and a sequence of undisturbed ticks achieve.
- **Log streaming.** The log writer that cuts chunks into lines (`Framing`), the broadcaster and its
  bounded channels (`Broadcasting`), and one streaming client beside the writer (`LogStreaming`).
- **The fixed-window rate limiter** (`RateLimiting`).
- **Three text transformations:** the project slug in Go and in JavaScript (`Slug`), environment variables
  as text (`EnvText`), and the `Link` header of paged answers (`LinkHeader`, a subset of section 3 of
  RFC 8288).

## Assumptions

- Atomicity: a method of the queue manager is one step, because it holds the manager's lock; one write of
  the monitor is one step too, although the monitor does not take that lock. Nothing else is assumed
  about scheduling.
- Job ids are fresh, the clock does not run backwards, the memory budget is a fixed integer of at least 1.
  Memory estimates are arbitrary non-negative numbers fixed when a job is inserted.
- A database write that fails leaves the table as it was. In the transition system any write may fail; the
  classes describe runs without such failures.
- Integers are unbounded. `SystemTheorems.RamBudget` also bounds the sum a tick computes, so 64 bits are
  enough for it when they are enough for the budget.

## Where the code does less than one might expect

- *Success is not final.* The stuck check works from a snapshot and writes without consulting the state
  graph, so it can overwrite a success recorded after the snapshot. `TickRun.SuccessCanBeOverwritten`
  builds such a run from the empty table. `SystemTheorems.EveryChangeIsAnEdge` shows that this is the only
  change that leaves the state graph, and says exactly when it happens; without a success between a
  snapshot and the end of its stuck check, success is final and every change is an edge.
- *Recovery.* The comment on `recoverInterruptedJobs` says the jobs go back to pending; the code fails
  them, and leaves rows in `hot_swapping` alone. The model follows the code. Such rows are failed by a
  later stuck check (`SystemLimits.InFlightLimit`).
- *Drain* can return while a `Spawn` is between its insert and its add to the wait group; it is complete
  exactly when there is none (`Supervision.DrainComplete`, `Supervision.DrainMissesHalfwaySpawn`).
- *Environment text.* Printing what was parsed changes nothing more the second time with the browser's
  parser, on every text; with the server's parser it can, because the two sides trim different
  characters (`EnvText.ServerIsNotIdempotent`). `EnvText.PrintAfterParse` gives the exact condition.
- *Replay* drops a carriage return before a line's newline and also sends an unterminated last line, so a
  line that is complete later may be sent in part first and then in full through the channel.
- *Rate limit.* A closed interval as long as the window admits up to twice the limit less one request,
  and that bound is attained.

## Model

| member | source | states |
|---|---|---|
| Jobs.StateGraph | internal/queue/state_machine.go:14-39 | The graph has no cycle except pending and held, nothing leaves a terminal status, the only way into flight is pending to running, exactly the active statuses may fail, only the two swapping statuses may succeed |
| Jobs.Edges | internal/queue/state_machine.go:14-39 | A move is allowed exactly on the nine listed edges and from every unfinished status to failed |
| Jobs.StatusKinds | internal/scheduler/scheduler.go:110-113 | Which statuses wait, occupy memory, are finished and are active, each listed |
| Jobs.ListTotalIsTotal | internal/scheduler/scheduler.go:108-114 | Summing estimates along any duplicate-free list that covers the weighing rows gives the sum over the whole table |
| Jobs.LoadOfFlying | internal/scheduler/scheduler.go:108-114 | The memory the scheduler counts is the plain sum of the estimates of the running, building, health_check, swapping and hot_swapping rows |
| Queue.Database.InsertJob | internal/infra/db/queries.go:283-295 | Adds exactly the new row |
| Queue.Database.GetJob | internal/infra/db/queries.go:342-350 | The row, or none for a missing id |
| Queue.Database.UpdateJobStatus | internal/infra/db/queries.go:297-302 | Changes only the status of that row; a missing id changes nothing |
| Queue.Database.UpdateJobStarted | internal/infra/db/queries.go:304-310 | Sets running, worker and start time of that row only |
| Queue.Database.UpdateJobFinished | internal/infra/db/queries.go:312-322 | Sets status, finish time and error of that row only; an empty message is no error text |
| Queue.Database.UpdateJobHeld | internal/infra/db/queries.go:324-330 | Sets held, reason and hold time of that row only |
| Queue.Database.ListActiveJobs | internal/infra/db/queries.go:376-398 | Each active row once, oldest first, nothing else |
| Queue.InsertSorted | internal/infra/db/queries.go:376-383 | Ordering by queue time keeps order, ids and contents |
| Queue.Manager.NextPendingAny | internal/queue/manager.go:62-73 | An oldest pending row, and none exactly when nothing is pending |
| Queue.Manager.ListActive | internal/queue/manager.go:76-86 | The active list of the table |
| Queue.Manager.UpdateStatus | internal/queue/manager.go:105-124 | Succeeds exactly when the row exists and the graph has the edge; then the status and nothing else changes, otherwise nothing does |
| Queue.Manager.Hold | internal/queue/manager.go:127-146 | Succeeds exactly for a pending row, which becomes held with reason and time; otherwise nothing changes |
| Queue.Manager.MarkStarted | internal/queue/manager.go:149-168 | Succeeds exactly for a pending row, which becomes running with worker and start time; otherwise nothing changes |
| Queue.Manager.MarkFinished | internal/queue/manager.go:171-190 | Succeeds exactly when the graph has the edge; then status, finish time and error text are written, otherwise nothing |
| Queue.Manager.Cancel | internal/queue/manager.go:194-213 | Succeeds exactly for a pending or held row, which it fails |
| Queue.Manager.RecoverInterruptedJobs | internal/queue/manager.go:217-238 | Leaves every pending, held, hot_swapping, success and failed row equal to what it was; fails every running, building, health_check and swapping row with the restart message |
| Scheduling.Monitor.CheckHeld | internal/scheduler/monitor.go:38-74 | The loop is the pass of the tick function over the list |
| Scheduling.Monitor.CheckStuck | internal/scheduler/monitor.go:86-111 | The loop is the stuck pass of the tick function |
| Scheduling.Scheduler.InFlightMemory | internal/scheduler/scheduler.go:108-114 | The plain sum of the estimates of the listed jobs that are running, building, in health_check, swapping or hot_swapping |
| Scheduling.Scheduler.CollectHeld | internal/scheduler/scheduler.go:131-136 | The held jobs of the list in their order |
| Scheduling.Scheduler.Unhold | internal/scheduler/scheduler.go:144-154 | The un-hold pass of the tick function |
| Scheduling.Scheduler.PickAndDispatch | internal/scheduler/scheduler.go:157-202 | Picks an oldest pending row of the table as it is after the passes, and decides on it |
| Scheduling.Scheduler.Dispatch | internal/scheduler/scheduler.go:167-202 | Fails, holds or starts the picked job; a job is spawned exactly when its start was accepted |
| Scheduling.Scheduler.Tick | internal/scheduler/scheduler.go:99-203 | A job is started exactly when one was picked whose estimate is at most the memory read as free and, with what is in flight, at most the budget; the table and the tracked jobs are those of the tick function |
| Ticks.PassesArePointwise | internal/scheduler/scheduler.go:131-154 | The three loops over a snapshot amount to one simultaneous update of every row: auto-fail first, un-hold only what fits |
| Ticks.EffectiveIs | internal/scheduler/scheduler.go:123 | The effective memory is at most what is free, leaves the budget for the jobs in flight, and is the largest such number |
| Ticks.PassesOnRow | internal/scheduler/scheduler.go:131-154 | A held row is failed exactly when it exceeds the budget or was held for over 30 minutes, else waits again exactly when it fits; an in-flight row is failed exactly when started over 10 minutes ago; no other row changes |
| Ticks.TickDecides | internal/scheduler/scheduler.go:166-190 | The picked job is started exactly when it fits free memory and budget, held when it could run but does not fit, failed when it could never run; no other row changes |
| Ticks.PostTick | internal/scheduler/scheduler.go:131-181 | After a tick every held row could run but does not fit free memory and budget, and was held at most 30 minutes ago or just now; every in-flight row was started at most 10 minutes ago or just now |
| Ticks.RoundMakesProgress | internal/scheduler/scheduler.go:99-203 | With room for everybody, a tick takes at least one job out of waiting and never adds active memory |
| Ticks.BoundedDrain | internal/scheduler/scheduler.go:99-203 | After n + 1 such ticks with only runners writing between them, the waiting jobs are gone or at least n + 1 fewer |
| Ticks.DrainedInTime | internal/scheduler/scheduler.go:99-203 | As many ticks as jobs were waiting leave none waiting |
| Ticks.StartedInQueueOrder | internal/scheduler/scheduler.go:157-202 | Of two jobs started in such a sequence the earlier started was queued no later |
| SystemInvariant.RowChange | internal/queue/manager.go:105-238 | Every change any event makes to any row, classified by who may make it and from which status |
| SystemInvariant.InvKept | internal/scheduler/scheduler.go:99-203 | Every event of every actor keeps the whole invariant |
| SystemInvariant.InvHolds | internal/scheduler/scheduler.go:82-203 | The invariant holds in every state of every run |
| SystemInvariant.LoadChange | internal/scheduler/scheduler.go:185-191 | Only an accepted start adds memory in flight, and it adds its own estimate |
| SystemTheorems.RamBudget | internal/scheduler/scheduler.go:108-123 | In every state of every run, the plain estimates of any set of rows in the five in-flight statuses sum to at most the budget |
| SystemTheorems.StartFits | internal/scheduler/scheduler.go:175-191 | A start decided on an older snapshot still fits when it is written |
| SystemLimits.EffectiveWasRead | internal/scheduler/scheduler.go:117-123 | In every run, what a tick takes to fit is exactly what fits the free memory it read and the budget beside its snapshot |
| SystemLimits.DecisionByReading | internal/scheduler/scheduler.go:157-190 | In every run, a decision starts the job exactly when it is still pending and fits what this tick read; it holds or fails it otherwise |
| SystemTheorems.DispatchedAtMostOnce | internal/scheduler/scheduler.go:187-202 | No two Spawn calls of a run, restarts included, are for the same job |
| SystemTheorems.SpawnIsNeverRefused | internal/engine/supervisor.go:30-38 | The "already running" error cannot be reached from tick |
| SystemTheorems.CancelledIsNeverSpawned | internal/queue/manager.go:194-213 | A job whose cancel succeeded is spawned neither before nor after |
| SystemTheorems.StaysDeleted | internal/infra/db/queries.go:220-223 | A deleted job's id never returns to the table |
| SystemTheorems.ForwardOnly | internal/queue/state_machine.go:14-24 | A job's rank never falls; after dispatch its status changes at most five times, once per rank at most |
| SystemTheorems.FailedIsAbsorbing | internal/queue/manager.go:171-213 | In every interleaving failed stays failed |
| SystemTheorems.EveryChangeIsAnEdge | internal/scheduler/monitor.go:88-107 | A status change is an edge of the graph if and only if it is not a stuck check's stale overwrite of a success |
| SystemTheorems.QuietRunsFollowTheGraph | internal/scheduler/monitor.go:45-107 | Without a success recorded between snapshot and stuck check, every write, the monitor's included, follows the graph |
| SystemTheorems.SuccessIsAbsorbingWhenQuiet | internal/scheduler/monitor.go:88-107 | In such runs success stays success |
| SystemTheorems.NothingInFlightTooLong | internal/scheduler/monitor.go:86-111 | If the last clean stuck check is at most d old, nothing has been in flight longer than 10 minutes + d, hot swaps left by recovery included |
| SystemLimits.InFlightLimit | internal/scheduler/monitor.go:86-111 | At any time after a stuck check without failed writes, nothing has been in flight longer than 10 minutes and the time since that check began |
| SystemTheorems.NothingHeldTooLong | internal/scheduler/monitor.go:38-74 | The same for held rows and 30 minutes |
| SystemLimits.HeldLimit | internal/scheduler/monitor.go:38-74 | The same for held rows and 30 minutes |
| SystemTheorems.PostPasses | internal/scheduler/scheduler.go:139-140 | Right after a clean pass, with everybody else writing meanwhile, the bare limits hold against the pass's own clock |
| SystemTheorems.HeldOnlyForLackOfMemory | internal/scheduler/scheduler.go:144-181 | A held row does not fit the effective memory of the last clean un-hold pass, and fits the machine |
| SystemLimits.HeldDidNotFit | internal/scheduler/scheduler.go:144-181 | From one un-hold pass to the next, a held row does not fit what that tick had read, and fits the machine |
| SystemTheorems.RecoveryLeavesHotSwaps | internal/queue/manager.go:217-238 | After a recovery without failed writes, whatever is in flight is hot swapping |
| SystemLimits.RestartSpares | internal/queue/manager.go:217-238 | Crash, boot and recovery leave every pending, held, hot_swapping or finished row as it was |
| SystemLimits.RecoveryFailsTheRest | internal/queue/manager.go:217-238 | A recovery without failed writes fails every row found running, building, in health_check or swapping |
| SystemTheorems.OvertakingOnlyForLackOfMemory | internal/scheduler/scheduler.go:142-190 | When a job is started, every older active job known at the pick is in flight or held with an estimate above the effective memory |
| SystemLimits.OvertakenDidNotFit | internal/scheduler/scheduler.go:142-190 | The same, with the held ones not fitting what that tick had read |
| SystemTheorems.KnownIsTheTableAtPick | internal/queue/manager.go:62-73 | "Known" above is the whole table at the pick, and no pending job in it is older |
| SystemTheorems.OthersKeepTheRely | internal/scheduler/monitor.go:52-107 | Whatever another actor does, a live runner's row is untouched, failed or deleted |
| SystemTheorems.RelyOverManyEvents | internal/scheduler/monitor.go:52-107 | The same over any number of events |
| SystemTheorems.SpawnedRowIsRunning | internal/scheduler/scheduler.go:187-202 | When its goroutine starts, a job's row is running unless it was deleted |
| TickRun.TickIsARun | internal/scheduler/scheduler.go:99-203 | An uninterrupted tick is a run of the transition system with the same table, spawns and tracked jobs |
| TickRun.SuccessCanBeOverwritten | internal/scheduler/monitor.go:101-107 | A run from the empty table in which the stuck check turns a success into failed |
| Runner.Runner.Run | internal/engine/runner.go:62-126 | For all stage outcomes and all interference the actions form a legal run and the row ends failed, deleted, or successful; successful exactly when nil was returned and the terminal write accepted; undisturbed, nil exactly when everything succeeded |
| Runner.Runner.RunHotSwapPath | internal/engine/runner.go:209-239 | The hot-swap path follows its plan and leaves the row as promised |
| Runner.Runner.BuildAndGoOn | internal/engine/runner.go:160-205 | The rebuild path from the build phase on follows its plan |
| Runner.Runner.Fail | internal/engine/runner.go:241-246 | Exactly one failing write, and an error |
| Runner.Runner.Boundary | internal/engine/runner.go:161-164 | A phase-boundary update is accepted exactly when the row it then finds allows it |
| Runner.StagesFollowTheirBoundary | internal/engine/runner.go:161-194 | Every stage but fetch starts directly after its own boundary was accepted |
| Runner.SwapOnlyWhenChecked | internal/engine/runner.go:161-194 | Swap runs only after fetch, build and health check succeeded in that order and all three boundaries were accepted |
| Runner.HotSwapOnlyWhenAccepted | internal/engine/runner.go:209-239 | The hot swap runs only after a successful fetch and an accepted move to hot_swapping |
| Runner.SuccessfulRun | internal/engine/runner.go:105-239 | A run that returns nil, stage by stage, for both modes |
| Runner.RejectionEndsTheRun | internal/engine/runner.go:161-194 | A rejected boundary is followed by cleanup, the failing write and nothing else |
| Runner.ModesDoNotMix | internal/engine/runner.go:121-126 | Hot-swap runs never build, check health or swap, and rebuild runs never hot-swap |
| Runner.CleanupOnceThenFinish | internal/engine/runner.go:129-246 | Exactly one terminal write, last; cleanup exactly once, right before it, exactly when a boundary was reached |
| Runner.NilMeansEverythingSucceeded | internal/engine/runner.go:62-246 | Nil implies that all succeeded, and conversely when every queue call was accepted |
| Supervision.EveryInterleavingAccounted | internal/engine/supervisor.go:30-49 | In every interleaving the map holds exactly the jobs of the tracked goroutines, one goroutine each, and the wait group counts the started ones |
| Supervision.WaitGroupEquation | internal/engine/supervisor.go:30-88 | Wait group = tracked jobs + released but not done - inserted but not added |
| Supervision.DrainComplete | internal/engine/supervisor.go:70-82 | At wait-group zero no function runs, and the map is empty if and only if no Spawn is half-way |
| Supervision.DrainMissesHalfwaySpawn | internal/engine/supervisor.go:30-49 | A reachable state with wait group zero and a tracked job |
| Supervision.Supervisor.Spawn | internal/engine/supervisor.go:30-49 | Refuses exactly a tracked job, changing nothing; otherwise tracks it and starts one goroutine |
| Supervision.Supervisor.TryInsert | internal/engine/supervisor.go:31-38 | The locked half of Spawn |
| Supervision.Supervisor.Start | internal/engine/supervisor.go:40-48 | The unlocked half: add to the wait group, start the goroutine |
| Supervision.Supervisor.ReleaseJob | internal/engine/supervisor.go:84-88 | Stops tracking exactly that job, keeping the books balanced |
| Supervision.Supervisor.ActiveCount | internal/engine/supervisor.go:63-67 | The number of tracked goroutines |
| Framing.LinesOfConcat | internal/engine/runner.go:336-361 | Framing bytes in two pieces, keeping the tail, gives the lines and tail of the whole |
| Framing.WritesFrameTheStream | internal/engine/runner.go:336-361 | After any writes the published lines and the buffer are the lines and tail of the concatenated bytes |
| Framing.ChunkingDoesNotMatter | internal/engine/runner.go:336-361 | Equal bytes cut differently leave the same state; lines, newlines and buffer together are all bytes written; no newline inside |
| Framing.LinesOfJoin | internal/engine/runner.go:343-358 | Framing undoes joining |
| Framing.BroadcastWriter.IndexOfBreak | internal/engine/runner.go:344-350 | The first newline or -1 |
| Framing.BroadcastWriter.PublishLines | internal/engine/runner.go:343-358 | Publishes every complete line of the buffer and keeps the tail |
| Framing.BroadcastWriter.Write | internal/engine/runner.go:336-361 | File, buffer and published lines after a write; nothing buffered or published after a file error |
| Broadcasting.Broadcaster.Publish | internal/api/sse/stream.go:45-54 | Every channel subscribed to the topic gets the line at its end if it held fewer than 64 and is unchanged otherwise; every other channel and all lists are unchanged; the topic has one published line more |
| Broadcasting.Broadcaster.SendAll | internal/api/sse/stream.go:48-53 | The loop over open channels: taken where fewer than 64 are queued, dropped elsewhere |
| Broadcasting.Broadcaster.Subscribe | internal/api/sse/stream.go:68-73 | Registers a fresh channel at the end of the topic's list |
| Broadcasting.Broadcaster.Unsubscribe | internal/api/sse/stream.go:74-88 | Closes exactly that channel and takes it, and nothing else, off its topic; an empty topic is dropped |
| Broadcasting.Broadcaster.Remove | internal/api/sse/stream.go:78-83 | The list without the channel |
| Broadcasting.Broadcaster.Receive | internal/api/sse/stream.go:163-171 | Takes the oldest queued line |
| Broadcasting.PublishOk | internal/api/sse/stream.go:45-54 | A publish keeps: no empty topic, every registered channel open and registered once, every delivery in order |
| Broadcasting.SubscribeOk | internal/api/sse/stream.go:68-73 | So does a subscription |
| Broadcasting.UnsubscribeOk | internal/api/sse/stream.go:74-88 | So does an unsubscription |
| Broadcasting.SubscriberGetsInOrder | internal/api/sse/stream.go:45-90 | A subscriber gets a subsequence of what was published since it subscribed, in order, and all of it if the channel was never full |
| Broadcasting.RunOk | internal/api/sse/stream.go:45-90 | After any sequence of operations the registry and every delivery are in order |
| Broadcasting.LogIsSent | internal/api/sse/stream.go:45-54 | After any sequence of operations the published lines of a topic are the lines passed to Publish for it |
| Broadcasting.SubscriberGetsWhatWasPublished | internal/api/sse/stream.go:45-90 | What a subscriber took and can still take is, in order, part of the lines passed to Publish since it subscribed, and all of them if it always had room |
| LogStreaming.ScanSendsLines | internal/api/sse/stream.go:192-196 | Replaying sends every complete line in order, itself or less a final byte 13, and one item more exactly when the bytes do not end in a newline and the rest fits the scanner: that rest |
| LogStreaming.ReplayLog | internal/api/sse/stream.go:179-197 | The replay loop sends what the scanner gives |
| LogStreaming.LongRestIsNotSent | internal/api/sse/stream.go:192-196 | An unterminated rest of 65536 bytes or more is not sent at all |
| LogStreaming.InvHolds | internal/engine/runner.go:336-361 | In every interleaving the file is ahead of the publisher by exactly the lines still buffered |
| LogStreaming.NoGap | internal/api/sse/stream.go:107-127 | Lines published before the subscription are all in the replay, byte for byte but for a final byte 13, the later ones all in the channel, in order |
| LogStreaming.EveryLineArrives | internal/api/sse/stream.go:107-127 | Line k of the log is in the replay, byte for byte but for a final byte 13, or at its place in the channel, whatever the interleaving |
| LogStreaming.DropOnlyWhenFull | internal/api/sse/stream.go:48-53 | A line is lost only when 64 were queued |
| RateLimiting.RateLimiter.Handle | internal/api/http/middleware/ratelimit.go:48-65 | Counts in the running bucket or opens one that runs for a window; admits exactly up to the limit; no other address changes |
| RateLimiting.RateLimiter.Purge | internal/api/http/middleware/ratelimit.go:36-44 | Deletes exactly the buckets whose window has passed |
| RateLimiting.EachAddressIsAlone | internal/api/http/middleware/ratelimit.go:28-65 | The shared map with clean-ups treats every address as if alone and never cleaned |
| RateLimiting.CleanupsAreInvisible | internal/api/http/middleware/ratelimit.go:28-46 | Histories with the same requests and clean-ups anywhere decide alike |
| RateLimiting.BucketBound | internal/api/http/middleware/ratelimit.go:52-62 | At most maxReq admissions per bucket lifetime |
| RateLimiting.AdmissionBound | internal/api/http/middleware/ratelimit.go:48-65 | At most 2 * maxReq - 1 admissions per address in any closed interval of the window's length |
| RateLimiting.AdmissionBoundIsTight | internal/api/http/middleware/ratelimit.go:48-65 | For every limit and window some history admits that many |
| RateLimiting.ModestClientsAreAdmitted | internal/api/http/middleware/ratelimit.go:48-65 | A request is admitted if its address made at most maxReq requests, itself included, within the last window |
| Slug.SafeSlugGo | internal/engine/runner.go:285-307 | The Go loops compute the slug of the bytes |
| Slug.SafeSlugJs | internal/ui/static/js/project.js:361-376 | The JavaScript loops compute the slug of the code units |
| Slug.SlugIsJoinedWords | internal/engine/runner.go:285-307 | A slug is the name's alphanumeric runs in lower case joined by single dashes |
| Slug.SlugKeepsLetters | internal/engine/runner.go:285-307 | Without its dashes a slug is the letters and digits of the name in order, in lower case |
| Slug.SlugOfSeparated | internal/engine/runner.go:285-307 | Any other character separates: the slugs of both sides, with one dash between them if neither is empty |
| Slug.SlugShapeAndIdempotence | internal/engine/runner.go:285-307 | Only a-z, 0-9 and single inner dashes; slugging twice changes nothing |
| Slug.GoAndJsAgree | internal/ui/static/js/project.js:361-376 | For every Unicode name, UTF-8 bytes and UTF-16 units give the same slug |
| EnvText.ParseOnServer | internal/app/project_service.go:215-225 | The server's loop is the line parser with Go's white space |
| EnvText.ParseInBrowser | internal/ui/static/js/project_edit.js:200-214 | The browser's loop is the same parser with JavaScript's white space |
| EnvText.WrittenParses | internal/app/project_service.go:216-224 | A line of white space, key, '=', value, white space gives that key and value |
| EnvText.ParsedWasWritten | internal/app/project_service.go:216-224 | Conversely every line that gives a variable is written so |
| EnvText.ParseOfConcat | internal/app/project_service.go:215-225 | A text is read line by line, each line for itself |
| EnvText.PrintOfOne | internal/ui/static/js/project_edit.js:221-226 | An entry prints as its trimmed key, '=' and its value as it stands; a blank key prints nothing |
| EnvText.PrintOfConcat | internal/ui/static/js/project_edit.js:221-226 | Lists print one after the other with a newline between what they print |
| EnvText.ParseAfterPrint | internal/ui/static/js/project_edit.js:221-226 | A list reads back from its printed form if and only if its keys are trimmed, not empty, free of '=' and newlines, start neither with '#' nor the reader's white space, and its values have no newline or trailing white space |
| EnvText.PrintAfterParse | internal/app/project_service.go:215-225 | Print-after-parse is idempotent on a text if and only if no printed key starts with '#' or the reader's white space |
| EnvText.BrowserIsIdempotent | internal/ui/static/js/project_edit.js:200-226 | With the browser's parser that is every text |
| EnvText.ServerIsNotIdempotent | internal/app/project_service.go:215-225 | With the server's parser one text for which it fails |
| LinkHeader.SplitLink | internal/infra/github/client.go:154-175 | The loop cuts at exactly the commas outside angle brackets |
| LinkHeader.PartsJoin | internal/infra/github/client.go:154-175 | Joining the parts restores the header unless it ends in a comma outside brackets, and then only that comma is lost |
| LinkHeader.PartsHaveNoBareComma | internal/infra/github/client.go:154-175 | A comma within a part lies between a '<' and the next '>' |
| LinkHeader.PartsOfJoin | internal/infra/github/client.go:154-175 | Cutting undoes joining for non-empty parts with closed brackets and no bare comma |
| LinkHeader.HasRel | internal/infra/github/client.go:178-187 | True exactly when rel="name" occurs in the part |
| LinkHeader.PieceHasNext | internal/infra/github/client.go:178-187 | In a rendered link it occurs exactly when the relation is "next" or the URL itself spells it |
| LinkHeader.ExtractURL | internal/infra/github/client.go:190-200 | The loop is the extraction function |
| LinkHeader.ExtractIs | internal/infra/github/client.go:190-200 | What lies between the first '>' that has a '<' before it and the nearest such '<'; empty without one |
| LinkHeader.NextPageURL | internal/infra/github/client.go:140-151 | The URL of the first part taken for "next", else empty |
| LinkHeader.NextOfRender | internal/infra/github/client.go:140-200 | For every list of links, commas in URLs or not, the URL of the first link taken for "next" |
| LinkHeader.NextPageIsTheNextLink | internal/infra/github/client.go:140-200 | With URLs free of quotes, the URL of the first rel="next" link, else empty |

## Left out

- Docker, git, compose, YAML and GitHub calls: a stage is an arbitrary success or failure and an entry in the trace.
- SQL and SQLite: the table is a map from id to row; deleting a project removes any set of rows.
- Contexts, the 30-minute job timeout, `Supervisor.Cancel`, commit statuses and the update of the commit id: none of them writes a job status.
- `Manager.NextPending`, `Enqueue` and `ListHeld`: they do not decide scheduling.
- Adaptive estimates and the startup budget: the code stores no estimate, and the budget is any integer of at least 1.
- `PublishJSON`, the dashboard stream and keep-alive comments: the same channels with other text.
- Retries, token cache, authentication, webhooks, preflight, terminal, templates: foreign calls or easy members.
- Unknown status strings: statuses are a datatype, so the manager's error for an unknown status does not appear.
- Ticks.StuckText: leaves out the rounded duration that the source adds to the message.
- Scheduling.Scheduler.Tick: runs without interruption and without database errors; both are in the transition system, to which TickRun.TickIsARun links it. It is cut into helper methods that the source has in one body.
- Scheduling.Scheduler.Dispatch: the spawned function is not called; the runner's run is a separate object of study.
- Runner.Runner.Run: the rebuild path is cut into one method per phase; the texts of the errors are shortened.
- Broadcasting.Broadcaster.Publish: is one step although it holds only a read lock; each log topic has a single publisher.
- Broadcasting.Broadcaster.Unsubscribe: must be invoked once; the source panics on a second close.
- Broadcasting.Broadcaster.Subscribe: a channel is a number in a map, chosen fresh by the caller, not a heap object.
- LogStreaming.NoGap: assumes that the channel never overflowed and that lines fit the scanner; write errors to the client end the stream and are not modelled.
- Framing.BroadcastWriter.Write: an error result is a parameter, since it comes from the file.
- RateLimiting.RateLimiter.Handle: takes the address as given; how it is read from a request is not modelled.
- EnvText.ParseOnServer: texts are sequences of Unicode characters; bytes that are not UTF-8, and encryption, are not modelled.
- LinkHeader.ExtractURL: strings are sequences of characters; all comparisons are with ASCII, so bytes and runes agree.
