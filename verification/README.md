# Verification model of the delayed-leave engine

This project models, in Dafny, the part of the service that keeps a Matrix delayed
leave event alive while a participant is on the SFU and sends it when they leave,
and proves what its comments and documentation promise. Check it with
`dafny verify dfyconfig.toml`.

## What is modelled

- **One job** (`Fsm`, `JobModel`, `JobInvariant`, `JobProperties`, `JobActor`). The
  FSM tables, the actor loop, the bounded event channel, the one-slot restart-result
  channel, and every spawned task (lookup, restart, send, abort notice, the two timer
  sleeps) with its own program counter. `JobModel.Next` gives the effect of each
  atomic step; any enabled step may be taken, because the select is unbiased. So a
  stopped timer may still fire, a cancelled loop may still dispatch, and a cancelled
  task may still win a send. `JobActor.DelayedEventJob` is the loop as a class that
  updates its fields, proved to take exactly those steps.
- **What comes of a job's calls** (`JobOutcomes`): the time each call is granted, what
  each answer leads to, and what caused each event, in both directions.
- **The job's restart cycle and its wait group** (`RestartCycle`, `JobJoin`): progress
  of the cycle, and the job composed with `WaitGroup` operation by operation.
- **The job and the homeserver** (`KeepAlive`). The homeserver sends the event one
  delay timeout after the last restart it accepted. It may accept an attempt whose
  response is lost or late.
- **The handler loop, the store writer and any number of jobs** (`HandlerModel`,
  `HandlerInvariant`, `HandlerProperties`, `HandlerEffects`, `JobsOfTheHandler`,
  `HandlerDelivery`, `LastWord`, `Recovery`, `RetiringWindow`, `ShutdownJoin`,
  `HandlerActor`). A job is known by its index, and equal indices stand for pointer
  equality. Store operations can fail, and a failed one may still have been applied.
- **The retry loop** (`Retry`), against every sequence of outcomes, durations, random
  draws, oversleeps and cancellations, in exact arithmetic.
- **The wait group** (`WaitGroup`), one atomic operation at a time.
- **TTL cache and URL resolution** (`TtlCache`), **order-preserving IDs**
  (`UniqueId`), **store and hash encodings** (`JsonStrings`, `StoreEncoding`,
  `RedisRecovery`).

Times are nanoseconds on one clock (seconds in `Retry`). Actions of the network, the
random source and the scheduler are steps or parameters chosen arbitrarily.

## How the parts hang together

`JobInvariant.NextKeeps` shows that every step of a job keeps its invariant;
`HandlerInvariant.StepKeeps` does the same for handler, writer and all jobs together
and uses the former for each job. The run-level theorems follow from these two.
`JobsOfTheHandler.RunOfJob` shows that each job the handler ever creates goes through a
run of `JobModel`, so what holds over those runs holds for it.

`JobModel` lets the loop exit once no tracked task is left. `JobJoin` derives this:
there the loop exits when its own call of `WaitGroup`'s wait has returned, each tracked
task adds a guard when it is spawned and drops it after it has finished, and every act
is a step of `JobModel` or none (`JobJoin.ActIsStep`, `JobJoin.Projects`).

`StoreEncoding` ties the value-level store of the handler model to the Redis hash: what
`AllJobs` returns is what `HandlerModel.IsBoot` assumes was loaded. `RedisRecovery`
carries the hash through whole runs and joins any number of lives of the service, each
ended by a crash at any moment, into one statement about what is left. That no
delay is zero and no budget is "forever" is `JobProperties.BudgetRange` on the job's
side and `Retry.ZeroBudgetIsForever` on the loop's.

The public methods of the two classes `JobActor.DelayedEventJob` and
`HandlerActor.Handler` carry the invariants as `Valid`: `JobInvariant.Inv` and
`HandlerInvariant.SysInv`. The methods they call in between state the new fields only.

## Where code and comments differ

- The comment at `src/handler.rs:503-505` leaves replaced jobs to the shutdown path,
  but they have left the map by then, and shutdown waits for the jobs in the map only.
  If its wait does not time out, a tracked task that is still running belongs to a
  cancelled job that was replaced or had reported that it was done
  (`ShutdownJoin.OnlyForgottenJobsOutliveShutdown`), and the handler can be done with
  the restart attempt of a replaced or of a retired job in flight
  (`ShutdownJoin.ReplacedJobOutlivesShutdown` and `RetiredJobOutlivesShutdown` give the
  runs). Exactly: of what is unfinished when the service begins to close, a task can
  outlive a close without a timeout if and only if its job is not in the map
  (`ShutdownJoin.JoinWaitsForTheMap`).
- A job taken out of the map because it is done is stopped only after its Delete is
  queued (`src/handler.rs:602-612`). Between leaving the map and being stopped, however
  long the queueing takes, it is still uncancelled, and its tasks, which run on other
  threads, may still start a lookup or restart attempt:
  `RetiringWindow.RetiredJobMayStartRestart` gives a run that does, with room in the
  store queue. `HandlerProperties.AttemptsComeFromTheMap` states the window exactly;
  outside it only jobs in the map start attempts, and sends of a leave never happen
  inside it.
- The budget bounds the time of a retry loop and nothing bounds the number of its
  attempts (`src/retry.rs:98-100`). The loop goes on exactly until the elapsed time and
  the next wait together pass the budget (`Retry.BudgetIsExact`), so it ends whenever
  turns take time, whatever the server asks for (`Retry.Terminates`); but a server that
  keeps answering `Retry-After: 0` can be called any number of times within any budget
  (`Retry.AttemptsAreUnbounded`).
- A delay of 2^63 ns or more, that is from 9,223,372,036,855 ms on, does not survive the
  store (`StoreEncoding.DelayRoundTrip`, `StoreEncoding.MillisRoundTrip`). The least of
  them comes back as zero (`StoreEncoding.LargeDelayIsLost`), and recovery then deletes
  the job instead of reviving it (`StoreEncoding.LostDelayIsDropped`).
- No code emits `SfuNotAvailable`.

## Model

| member | source | states |
|---|---|---|
| Fsm.WebhookSignals | src/handler.rs:1902-1944 | The signals a webhook can bring in are exactly three, and the router forwards each of them |
| Fsm.WebhookGives | src/handler.rs:1902-1944 | Joining gives the connected signal, leaving or a broken-off connection the one for who ended it, and nothing else gives any |
| JobInvariant.NextKeeps | src/delayed_event_manager.rs:566-1173 | Every step of the loop, of any task or of the handler keeps the whole job invariant, under every interleaving |
| JobProperties.TokenConservation | src/delayed_event_manager.rs:430-434 | In every reachable state at most one restart token exists among tasks, queue and result slot; exactly one while Connected and not cancelled; none while waiting |
| JobProperties.HandOverNeverBlocks | src/delayed_event_manager.rs:430-432 | A restart that has a new deadline to hand over always finds the one-slot channel empty |
| JobProperties.RearmKillsNoTimer | src/delayed_event_manager.rs:625-631 | Whenever a result re-arms the timer, the timer in the slot has already delivered its event |
| RestartCycle.CycleNeverStalls | src/delayed_event_manager.rs:796-821 | While Connected and not cancelled the token's holder can itself go on, now or once its sleep has run out, and the loop only when the token is queued or its holder is blocked on a full queue; each such step starts the next attempt, leaves Connected or lowers a rank below 50 |
| RestartCycle.PausesEnd | src/delayed_event_manager.rs:796-821 | Along any stretch of a run that stays Connected and in which the cycle starts no attempt, the steps of the token's holder are fewer than 50 plus the events that others queue |
| JobProperties.StepHistory | src/delayed_event_manager.rs:826-874 | A step leaves the history of entered states alone or appends one state of strictly higher rank |
| JobProperties.StateNeverRevisited | src/delayed_event_manager.rs:1182-1214 | Over any run a state that was left is never seen again |
| JobProperties.TerminalStates | src/delayed_event_manager.rs:1182-1214 | Replaced is absorbing, and Disconnected and Aborted exclude each other over whole runs |
| JobProperties.SendsOnceNotifiesOnce | src/delayed_event_manager.rs:938-1034 | At most one send is ever started and at most one done notification sent, the latter only once no send or notifier is left running |
| JobProperties.DisconnectedMeansSendStarted | src/delayed_event_manager.rs:920-1019 | A job that ever entered Disconnected has its one send task, and no other notifier |
| JobProperties.LeaveIsTried | src/delayed_event_manager.rs:944-1018 | A send that is past its URL lookup and first check has started an attempt or found no URL, unless the job was cancelled; so the handler is never notified of an untried leave |
| JobProperties.WaitsAreWaited | src/retry.rs:125-139 | After a failed attempt the same call starts no other attempt before the wait it was given has passed |
| JobProperties.TimerOwnership | src/delayed_event_manager.rs:763-794 | While the loop runs, the waiting slot is filled exactly while waiting and the restart slot only while Connected; a timer that is still armed is the one in its slot |
| JobProperties.LeftTimersAreHarmless | src/delayed_event_manager.rs:574-594 | A timer may be stopped too late, but for the rest of any run after its state was left its event only shortens the queue |
| JobProperties.DeadlineOnlyAdvances | src/delayed_event_manager.rs:436-440 | The deadline is unset exactly until Connected is entered, and over a run never moves backwards |
| JobProperties.BudgetRange | src/delayed_event_manager.rs:930-936 | No retry is ever given the budget zero; a send gets between 1 s and 1 h, exactly 1 s when never Connected; a restart at most the delay timeout; no wait ends after its budget |
| JobOutcomes.CallsGetTheTimeLeft | src/delayed_event_manager.rs:921-936 | Throughout its call a send has the time that was left until the deadline when it was spawned, raised to 1 s and cut to 1 h, and 1 s without a deadline; a restart exactly the time until the deadline, all of the timeout on entering Connected; the lookup the timeout, at most 1 h |
| JobOutcomes.CallsStartWithTheUrl | src/retry.rs:111-112 | The clock of a call starts when its URL is known, that of the lookup when it is spawned |
| JobOutcomes.DeadlineMovesSo | src/delayed_event_manager.rs:615-622 | The deadline moves only on entering Connected, to one timeout later, and when the loop takes a result while Connected, to that result |
| JobOutcomes.DeadlineComesFrom | src/delayed_event_manager.rs:1143-1166 | Every deadline lies one timeout after the job entered Connected or after a restart that succeeded |
| JobOutcomes.SuccessIsPassedOn | src/delayed_event_manager.rs:1143-1166 | A restart that succeeds reports just that time to the handler, then hands one timeout later to the loop, and does nothing else, unless the job is cancelled |
| JobOutcomes.SuccessKeepsTheCycle | src/delayed_event_manager.rs:615-645 | While the job stays Connected the new deadline is on its way to the loop, or taken, with a timer set for 80 % of the timeout from then |
| JobOutcomes.TimerRunsOut | src/delayed_event_manager.rs:625-645 | While the job stays Connected that timer sleeps with its token good, or has fired, not before its time, to queue the next reset |
| JobOutcomes.TimersSleepTheirTime | src/delayed_event_manager.rs:568-594 | No timer fires early: the waiting timer sleeps for the timeout, at most 1 h, the restart timer for 80 % of it |
| JobOutcomes.EveryEventHasItsCause | src/delayed_event_manager.rs:1113-1142 | Every event in the queue came from a webhook, a replacement, or the one thing that causes it: found only after the SFU confirmed it, timed out only after a spent deadline or a wait past the budget, not found only after that answer, no URL only after a failed lookup, and so on |
| JobOutcomes.EveryCauseHasItsEvent | src/delayed_event_manager.rs:1113-1173 | Conversely each such cause has its event put into the queue, unless the job is cancelled |
| JobOutcomes.AnswersCount | src/retry.rs:115-139 | What each answer makes of a call, and when a failure is the last: exactly when its wait would end past the budget |
| JobOutcomes.StatesAreEnteredSo | src/delayed_event_manager.rs:1182-1224 | Each state is entered from just the states and by just the events of the table, and otherwise the state stays |
| JobOutcomes.ConnectedEndsSo | src/delayed_event_manager.rs:798-821 | Connected ends with Disconnected when a webhook or the lookup said that the participant left, with Aborted only after a restart failed, with Replaced only after a replacement; so a job whose restarts succeed stays until the participant leaves |
| JobOutcomes.DispatchSpawnsSo | src/delayed_event_manager.rs:899-1038 | A dispatch takes the oldest event and spawns one restart on entering Connected or by a reset, one send on entering Disconnected, one notice on entering Aborted, and nothing otherwise |
| JobOutcomes.NotifiersReport | src/delayed_event_manager.rs:1007-1034 | A send or notice that has ended in a job not cancelled has told the handler that the job is done |
| JobOutcomes.ReplacementIsTold | src/handler.rs:495-508 | Replacing cancels the job, and queues JobReplaced exactly if there is room |
| JobOutcomes.AnyAnswerMayCome | src/retry.rs:115-139 | A call in flight may be answered in any way at any time, and a job not cancelled never gives one up by itself |
| JobOutcomes.SayingMayGoOn | src/delayed_event_manager.rs:1113-1173 | What a task of a live job has to say can be said at once, or as soon as the event queue has room |
| JobOutcomes.LoopMayGoOn | src/delayed_event_manager.rs:596-645 | The loop of a live job takes an event or a result exactly when there is one, and does not end |
| JobOutcomes.LookupEndsSo | src/delayed_event_manager.rs:268-318 | A lookup of a live job ends only with its budget spent, with having told that the participant was found if later checks are disabled, or that it has gone |
| JobOutcomes.ChecksOnlyIfEnabled | src/delayed_event_manager.rs:277-288 | The later checks are made only if they are enabled |
| JobProperties.LookupOrder | src/delayed_event_manager.rs:268-318 | The lookup emits nothing, Found, or Found then Gone, and Gone is never dispatched while waiting |
| JobProperties.CancelledStartsNothing | src/retry.rs:115-120 | No retry loop starts an attempt in a cancelled job, or after the job's loop has stopped running |
| JobJoin.ActIsStep | src/delayed_event_manager.rs:598-607 | When the loop's own wait has returned no tracked task is left, so leaving the loop, like every other act of job and wait group, is a step of the job model or none |
| JobJoin.Projects | src/delayed_event_manager.rs:596-649 | Seen from the job, every run of job and wait group together is a run of the job model |
| JobJoin.DoneFlagMeansJoined | src/delayed_event_manager.rs:598-649 | In every run of job and wait group, once the loop has flagged that it is done every tracked task has ended |
| JobJoin.DrainedWaitReturns | src/delayed_event_manager.rs:162-175 | In every such run the draining loop is the only waiter, and with every guard dropped its wait returns after at most three operations of its own |
| JobProperties.DrainingSpawnsNothing | src/delayed_event_manager.rs:598-607 | After the cancellation branch no task is spawned any more, and state and deadline are final |
| JobActor.DelayedEventJob.Create | src/delayed_event_manager.rs:481-518 | A zero delay timeout is refused; any other gives a fresh job that satisfies the invariant |
| JobActor.DelayedEventJob.SpawnLoop | src/delayed_event_manager.rs:549-594 | Starting the lookup and arming the waiting timer is the model's Begin step |
| JobActor.DelayedEventJob.Iterate | src/delayed_event_manager.rs:596-647 | Each ready branch of the select takes exactly the model's step; only the cancellation branch leaves the loop |
| JobActor.DelayedEventJob.TakeResult | src/delayed_event_manager.rs:615-645 | The result branch extends the deadline and re-arms only while Connected, as the model's Rearm step |
| JobActor.DelayedEventJob.HandleEvent | src/delayed_event_manager.rs:826-842 | Internal action first, otherwise transition, exit action, entry action: the whole new state is the model's |
| JobActor.DelayedEventJob.HandleEntryAction | src/delayed_event_manager.rs:899-1038 | The entry actions spawn and set what the model says, with the clamped send budget |
| JobActor.DelayedEventJob.StartRestart | src/delayed_event_manager.rs:1055-1083 | With the deadline spent the timeout is reported, otherwise a restart is spawned with exactly the time that is left |
| JobActor.DelayedEventJob.Stop | src/delayed_event_manager.rs:656-658 | Stopping is the model's Cancel step, at any time |
| KeepAlive.StorySound | src/delayed_event_manager.rs:1055-1166 | In every world of every story the time since the last acceptance is exactly the latency spent plus what the timer has slept |
| KeepAlive.DueExactlyWhenSlackIsSpent | src/delayed_event_manager.rs:688-692 | Once a cycle's timer has run out, the event is due if and only if the cycle's latency has used up the slack, which is at least a fifth of the timeout; it is never due earlier |
| KeepAlive.NeverFiresWhileConnected | src/delayed_event_manager.rs:615-645 | If the first restart is accepted in time and each cycle's latency stays below the slack, the homeserver never sends the event while the job waits or is Connected, for any number of cycles |
| WaitGroup.DoKeeps | src/delayed_event_manager.rs:156-184 | Every atomic operation keeps the count exact, and keeps a notifier for every parked waiter |
| WaitGroup.CountIsLiveGuards | src/delayed_event_manager.rs:156-184 | Under all interleavings the count equals the live guards, so a decrement never wraps |
| WaitGroup.NoLostWakeUp | src/delayed_event_manager.rs:162-175 | With every guard dropped, no waiter is parked without its notification |
| WaitGroup.QuietWaiterReturns | src/delayed_event_manager.rs:162-175 | With every guard dropped, each waiter gets home in at most three operations of its own |
| WaitGroup.ReturnedMeansNoGuard | src/delayed_event_manager.rs:162-184 | After wait has returned no guard is live, as long as none is added |
| WaitGroup.ReturnsExactlyThen | src/delayed_event_manager.rs:162-175 | A wait returns exactly at a load of the count that finds no guard live |
| Retry.BackoffState.NextInterval | src/retry.rs:83-95 | The wait is the draw clamped to between half and one and a half of the current interval, which then grows by 1.5 up to 60 s |
| Retry.Judge | src/retry.rs:120-139 | Success, permanent error, spent budget, cancellation or sleep, in this order of precedence, so a spent budget wins over a cancellation; and the wait and the next base interval are those the error class calls for |
| Retry.Run | src/retry.rs:101-141 | For every environment: when each attempt starts, that each wait is the hint or the draw clamped to half to one and a half of min(60, 1.5^n), and each verdict exactly when it applies: success and permanent error by the last attempt, exhaustion by elapsed time and wait past the budget, cancellation before an attempt or during a wait within the budget |
| Retry.ResultsAreRight | src/retry.rs:115-139 | The same of every outcome the loop's specification admits, in terms of turns, starts and waits alone |
| Retry.AttemptsStartInTime | src/retry.rs:131-134 | With a positive budget no attempt starts after it, but for the last sleep's overrun |
| Retry.TransientBound | src/retry.rs:125-134 | The transient waits taken satisfy half the sum of min(60, 1.5^i) <= budget |
| Retry.Terminates | src/retry.rs:98-141 | With a positive budget, however small the hints: all turns slept through but the last fit into the budget, so with turns (attempt, wait and oversleep together) of at least some length the loop returns |
| Retry.BudgetIsExact | src/retry.rs:131-134 | With no success, permanent error or cancellation the loop goes through all its turns if and only if no wait would end past the budget, and otherwise gives up at the first that does |
| Retry.AttemptsAreUnbounded | src/retry.rs:125-134 | Within any positive budget, attempts that each take time and are answered with a hint of zero can be any number |
| Retry.OneSecondTwoAttempts | src/delayed_event_manager.rs:921-936 | The least budget of a send allows at most two attempts when the server gives no hints |
| Retry.ZeroBudgetIsForever | src/retry.rs:98-100 | With budget zero the loop never gives up on its own |
| HandlerInvariant.StepKeeps | src/handler.rs:344-654 | Every step of handler, writer, jobs, clients and environment keeps the invariant of the whole system |
| HandlerProperties.OneLiveJobPerKey | src/handler.rs:495-508 | No two uncancelled jobs share a key; when the loop is about to select, the uncancelled jobs are exactly the map's values |
| HandlerEffects.RequestTakesEffect | src/handler.rs:477-559 | A request gives its key a new job with just its parameters, replaces the one that had the key, owes an answer and decides just that Save; a request with a zero timeout changes nothing |
| HandlerEffects.DoneTakesEffect | src/handler.rs:588-615 | A job of the map that reports done leaves it, a Delete of its key is decided and it is to be stopped; for any other job nothing happens |
| HandlerEffects.RestartTakesEffect | src/handler.rs:617-643 | A restart time is noted, and a Save of just that time and the job's parameters decided, if the job is in the map, and otherwise nothing happens |
| HandlerEffects.IdleMeansSettled | src/handler.rs:469-646 | When the loop waits for the next signal every job has been started, and every one not in the map cancelled |
| HandlerEffects.LoopTakesWhatComes | src/handler.rs:452-646 | Idle, the loop takes from any queue that holds something; with an operation in hand it goes on exactly when the store queue has room; recovery and writer go on whatever their operations come to |
| HandlerEffects.WriterTakesWhatComes | src/handler.rs:351-374 | The writer takes an operation whenever one is queued, and its attempt may succeed, fail, or fail and be applied all the same |
| HandlerEffects.InputsAreQueued | src/handler.rs:1911-1944 | Time passes, a request or webhook waits at the end of its queue, the webhook as the signal of its row, and nothing else changes |
| HandlerEffects.EntryTakesEffect | src/handler.rs:396-445 | In recovery an entry whose event is still ahead becomes a running job with just its parameters and restart time; any other is deleted |
| HandlerProperties.AttemptsComeFromTheMap | src/handler.rs:588-615 | No retry loop of a replaced job starts an attempt; the starter is the job in the map if and only if the loop is not waiting to queue its Delete; an attempt to send a leave always comes from the map |
| RetiringWindow.RetiredJobMayStartRestart | src/handler.rs:602-612 | A complete run from boot in which a job out of the map, its Delete not yet queued, may start a restart attempt |
| ShutdownJoin.OnlyForgottenJobsOutliveShutdown | src/handler.rs:455-467 | After a close that did not time out, for the rest of the run, an unfinished tracked task belongs to a cancelled job that is not in the map: it was replaced or had reported done |
| ShutdownJoin.ReplacedJobOutlivesShutdown | src/handler.rs:503-505 | A complete run, without a timeout, in which the handler is done while a replaced job's restart attempt is in flight |
| ShutdownJoin.RetiredJobOutlivesShutdown | src/handler.rs:602-612 | The same of a job that had retired after reporting that its leave was done |
| ShutdownJoin.ClosingCanEnd | src/handler.rs:455-473 | From every state in which the service has begun to close it can end without a timeout, every job that is not in the map staying as it was |
| ShutdownJoin.JoinWaitsForTheMap | src/handler.rs:455-473 | Of what is unfinished when the service begins to close, a task may outlive a close without a timeout if and only if its job is not in the map |
| HandlerProperties.CleanupNeverCutsLeaveShort | src/delayed_event_manager.rs:1007-1017 | Without replacement and shutdown, a job whose send has not ended is neither cancelled nor taken out of the map |
| HandlerProperties.OnlyDoneJobsRetire | src/handler.rs:588-615 | The map only lets go of a job that was replaced or has reported done, with all its notifiers ended |
| JobsOfTheHandler.RunOfJob | src/handler.rs:344-654 | Every job of every run of the system goes through a run of the job model, whose own steps are steps of the system in which the job was in the same state |
| JobsOfTheHandler.LeaveReachesTheHomeserver | src/delayed_event_manager.rs:938-1018 | Without replacement and shutdown, a job that entered Disconnected leaves the map only after its send started an attempt or found no URL |
| HandlerProperties.StoreIsAnEarlierMap | src/handler.rs:341-387 | At every moment the store equals, on every key whose last write succeeded, the jobs map as it stood at some earlier moment |
| HandlerProperties.OutstandingClosesTheGap | src/handler.rs:379-387 | Applying the outstanding operations to the store yields the current jobs map |
| HandlerProperties.SuccessKeepsClean | src/handler.rs:389-448 | As long as loading and store operations succeed, store and map can differ only on keys not yet recovered |
| HandlerProperties.WritesOnceInOrder | src/handler.rs:347-378 | Every decided operation is attempted exactly once and in the order of the decisions |
| HandlerProperties.RepliesAreDurable | src/handler.rs:544-558 | An add request is answered Ok only after its own Save and every earlier operation were attempted |
| HandlerProperties.AttemptedMeansReady | src/handler.rs:544-558 | Once its Save was attempted the reply can be sent at once |
| HandlerEffects.AnsweredOnce | src/handler.rs:544-558 | An answer that was sent has arrived for good, and no client gets a second one |
| HandlerEffects.ClosingBegins | src/handler.rs:453-462 | When the loop begins to close, every job is cancelled and no done report is left in the queue to block a task |
| HandlerProperties.ShutdownDrains | src/handler.rs:647-653 | When the loop flags that it is done every operation was attempted, and on every key whose last write succeeded the store is the map at loop exit |
| LastWord.StoreKeepsAWord | src/handler.rs:347-387 | For every key and moment, whatever failed or was half applied, the store says what the map said just after some decision about the key since which no write about it succeeded; with no such decision it holds what was loaded, unless that expired |
| HandlerProperties.SomeoneCanMove | src/handler.rs:573-576 | Deadlock freedom: whoever is blocked waits for someone of strictly lower level, and at most two waits lead to an agent that is not blocked and has an enabled step |
| HandlerDelivery.DoneIsNotLost | src/handler.rs:588-602 | Until shutdown, a job that has sent its done notification is out of the map or the notification is still queued |
| HandlerDelivery.RestartTimesArrive | src/handler.rs:617-643 | While a job is in the map, the restart time the handler has noted or queued for it is the last one it ever reported, or the one it was created with |
| HandlerDelivery.SignalsReachTheirJob | src/handler.rs:562-585 | A webhook signal goes unchanged to the job in the map under its own room and identity, and is dropped only if there is none |
| HandlerDelivery.RoutedSignalIsDelivered | src/handler.rs:573-576 | Until shutdown the job a signal is routed to stays in the map and running, so routing is never given up; the signal is sent exactly when there is room, and is appended to that job's queue and no other |
| HandlerProperties.SurvivesIfPending | src/handler.rs:402-418 | Recovery makes a job of an entry exactly if its timeout is not zero and the time of its last restart plus the timeout lies ahead, where a timeout above 2^63 - 1 ms counts as none |
| Recovery.RecoveryRebuildsMap | src/handler.rs:389-448 | Recovery puts into the map what was stored, unchanged: every entry whose event is still ahead at its end, and none whose event was due by its start; store and map are equal if the deletions succeed |
| Recovery.CrashAndRestart | src/handler.rs:389-448 | After a crash at any moment, one earlier moment serves for all keys already recovered and whose last write did not fail: of these a restart rebuilds the map of that moment less what expired |
| Recovery.CrashInRecovery | src/handler.rs:396-445 | After a crash during recovery, whichever deletions failed, a restart recovers exactly what the first recovery set out from less what expired |
| Recovery.EveryKeyComesBack | src/handler.rs:389-448 | For every key, failed writes or not, a restart brings back what the map held just after some decision about the key since which no write about it succeeded, or what the old service had itself loaded |
| HandlerActor.Handler.Recover | src/handler.rs:396-445 | The recovery loop takes exactly the model's recovery steps, entry by entry |
| HandlerActor.Handler.EnqueueStoreOp | src/handler.rs:381-387 | With a store the operation is decided and waits for the queue; without one the loop goes straight on |
| HandlerActor.Handler.OnAddJob | src/handler.rs:477-559 | The add arm: the whole new state is the model's TakeAdd step |
| HandlerActor.Handler.OnSfuEvent | src/handler.rs:562-585 | The routing arm is the model's TakeSfu step |
| HandlerActor.Handler.OnJobDone | src/handler.rs:588-615 | The done arm is the model's TakeDone step; it is stale exactly if the map does not hold this very job, and then map, jobs and decisions stay as they are |
| HandlerActor.Handler.OnJobRestarted | src/handler.rs:617-643 | The restarted arm is the model's TakeRestarted step, with the same staleness test |
| HandlerActor.Handler.Turn | src/handler.rs:469-646 | Every turn of the loop keeps the whole system's invariant and is exactly one step of the model |
| HandlerActor.Handler.WriterTurn | src/handler.rs:351-374 | Each of the writer's two steps, at any time, keeps the whole system's invariant and is exactly the model's |
| HandlerActor.Handler.DrainWriter | src/handler.rs:351-374 | With nothing added meanwhile, the writer's loop keeps the whole system's invariant and attempts what is queued, as Drained says |
| HandlerActor.Drained | src/handler.rs:351-374 | Draining attempts the whole queue once and in order, and if all succeed leaves the store as applying them all would; nothing else moves |
| TtlCache.Cache.Set | src/helper.rs:178-191 | A set extends the history the cache is the image of: purge, then drop if still full |
| TtlCache.Cache.Get | src/helper.rs:169-176 | A get is the lookup in what the history leaves held |
| TtlCache.SizeBounded | src/helper.rs:159-167 | A bounded cache never holds more than its bound |
| TtlCache.DroppedExactlyWhenFull | src/helper.rs:181-189 | A set is dropped if and only if as many other keys as the bound allows have a latest set that was not dropped and has not expired, told from the calls alone |
| TtlCache.HitIsLatest | src/helper.rs:169-176 | For any history and clock, a get returns the latest set's value exactly while its TTL holds and it was not dropped, and nothing otherwise |
| TtlCache.UnboundedDropsNothing | src/helper.rs:145-152 | Without a bound, a get is exactly the latest set within its TTL |
| TtlCache.Resolver.Resolve | src/helper.rs:1226-1269 | Overrides win over the cache, which wins over discovery; a URL returned is never empty and is the server's override or was discovered for this server at most four hours earlier; a discovered URL is set in the cache for four hours, and a cache with room then returns it all that time |
| TtlCache.ResolveTwice | src/helper.rs:1242-1258 | A second call within four hours of a discovery returns the same URL whatever discovery would say |
| UniqueId.Base32HexOrder | src/helper.rs:131 | The encoding is injective and strictly monotone on byte strings of one length, whatever the length |
| UniqueId.RegroupRoundTrip | src/helper.rs:131 | The 5-bit digits hold exactly the bits of the bytes, in order, followed by zeros that fill up the last digit |
| UniqueId.NewUniqueId | src/helper.rs:120-132 | Filling the buffer and encoding it gives the 26 characters for the timestamp bytes followed by the random bytes |
| UniqueId.IdsSortByTime | src/helper.rs:116-119 | IDs compare by their timestamps whatever the random bytes, then by the random bytes |
| JsonStrings.RoundTrip | src/helper.rs:198-200 | Decoding the JSON array of strings gives the original list, for every length and all characters |
| JsonStrings.TextOfTwo | src/helper.rs:198-200 | Two strings without special characters stand in brackets and quotes with a comma between |
| JsonStrings.TextIsClean | src/helper.rs:198-200 | The text of any list has no control characters |
| JsonStrings.KnownEscapes | src/helper.rs:198-200 | The short escapes of RFC 8259, section 7, and the long lower-case one for other control characters |
| StoreEncoding.KeysNeverShareAField | src/store.rs:79-82 | Two job keys share a Redis field if and only if they are equal |
| StoreEncoding.KnownTexts | src/store.rs:79-82 | For plain names the field is room and identity, in this order, as a JSON array, and so are the hash inputs |
| StoreEncoding.HashInputsAreDistinct | src/helper.rs:207-234 | Hash inputs coincide only for equal components, and 3-part ones never coincide with 2-part ones |
| StoreEncoding.DelayRoundTrip | src/delayed_event_manager.rs:328-342 | The delay survives the i64 nanosecond encoding if and only if it is below 2^63 ns, never comes back larger, comes back as zero exactly when its low 64 bits are zero or have the top bit set, and otherwise as its low 64 bits |
| StoreEncoding.MillisRoundTrip | src/delayed_event_manager.rs:328-342 | A delay in whole milliseconds survives if and only if it is at most 9,223,372,036,854 ms |
| StoreEncoding.LargeDelayIsLost | src/delayed_event_manager.rs:333-341 | The next delay comes back as zero, and 18,446,744,073,710 ms as less than half a millisecond |
| StoreEncoding.LostDelayIsDropped | src/handler.rs:402-418 | A job whose delay came back as zero does not survive recovery, at whatever time |
| StoreEncoding.DecodedDelayFitsChrono | src/handler.rs:404-407 | A delay read from the store never overflows chrono's range, so recovery computes its expiry exactly |
| RedisRecovery.HashTracksStore | src/store.rs:87-108 | Through every run of the handler system the Redis hash represents the value-level store |
| RedisRecovery.EachLifeReads | src/store.rs:110-127 | In every life of the service, whatever ended the ones before, the hash represents what was stored and reading it gives all of that |
| RedisRecovery.CrashAndRestartOnRedis | src/handler.rs:389-448 | After the last of any number of crashes, one earlier moment of the life it ended serves for all keys that life had recovered and whose last write did not fail; what comes back is that map, as the hash reads it, less what expired |
| RedisRecovery.LivesKeepAWord | src/handler.rs:389-448 | Through any number of lives, crashes within recovery and failures of every kind: of every key the last map holds what the map held just after some decision of some life since which no write about it was reported successful, or what the first life found; missing only if missing there or expired, and changed exactly if its delay is 2^63 ns or more |
| StoreEncoding.ReloadedIsSame | src/store.rs:110-127 | Writing and reading back changes nothing if and only if every delay fits |
| StoreEncoding.RedisStore.SaveJob | src/store.rs:87-98 | A save overwrites the entry under its own field and no other |
| StoreEncoding.RedisStore.DeleteJob | src/store.rs:100-108 | A delete removes at most the entry under its own field |
| StoreEncoding.RedisStore.AllJobs | src/store.rs:110-127 | Every readable entry is returned once and unreadable ones are skipped; from a hash that represents a store, that is each stored job once |

## Left out

- JobProperties.WaitsAreWaited: for any wait within the budget; which waits the schedule gives is proved in `Retry`, over seconds instead of nanoseconds.
- Retry.BackoffState.NextInterval: over exact reals, so rounding of `f64` seconds and of the random range is not captured; the random pick is an arbitrary number clamped to the range.
- Restart and send share one URL lookup and attempt model; what HTTP status means what is reduced to success, gone, or failed with some wait.
- RestartCycle.CycleNeverStalls: says that the next step exists and lowers the rank, not that a fair scheduler takes it.
- HandlerProperties.SomeoneCanMove: until shutdown; the 10 s timeout of a job's close is the flag of `FinishClosing`, which may be set at any time, and the one of the handler's own close ends only its caller's wait and is left out.
- JobProperties.CancelledStartsNothing: the presence checks of the lookup's second phase (src/delayed_event_manager.rs:291-298) are no attempts of a retry loop; their select is not biased, so one may still begin after cancellation.
- HandlerProperties.AttemptsComeFromTheMap: attempts of retry loops only, likewise.
- HandlerActor.Handler.DrainWriter: the loop as a whole only for a queue to which nothing is added meanwhile, as after the handler's loop has ended; with the handler's turns in between its steps are those of WriterTurn.
- KeepAlive.NeverFiresWhileConnected: assumes the latency bound it needs, and no scheduler or network is modelled that would provide it; the homeserver is not composed with the handler system, whose jobs go through the job's runs (`JobsOfTheHandler.RunOfJob`).
- HandlerProperties.CleanupNeverCutsLeaveShort: a replaced job and a job in a service that shuts down may lose their leave, as in the source.
- RedisRecovery.LivesKeepAWord: a later life's clock does not start before the earlier one ended.
- Monotonic and wall clock are one clock; clock jumps are not modelled.
- Overflow panics of `Duration` (a delay timeout above about 7e10 years times 8) and of date arithmetic are not modelled.
- JobActor.DelayedEventJob.Iterate: covers the loop; spawned tasks are steps of `JobModel`, not methods, because they run concurrently with it.
- Stored jobs whose field differs from their own key (written by other software) are excluded by `HandlerModel.IsBoot`.
- The JSON object of a stored job is a record, not text; field names, the RFC 3339 time stamp and the JSON parser for objects are not part of this model.
- JsonStrings.RoundTrip: the decoder refuses `\u` escapes of surrogates, which the encoder never writes, and white space.
- SHA-256 and base64 of the hash inputs: only that the inputs are distinct is proved.
- Concurrent use of the URL cache: one call at a time is modelled.
- HTTP routing, request validation, JWT minting, webhook signatures, the Redis connection, configuration, logging and process start-up.
