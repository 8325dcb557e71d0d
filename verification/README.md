# gdut-net: verified model of the service core

gdut-net keeps a campus PPPoE line up: a supervisor reacts to events, a shell executes the effects it
demands, a watchdog dials, probes and redials, and a wireless takeover bridges outages over the campus
WLAN with its own routes and interface metric. This project models that control loop in Dafny, together
with four self-contained cores around it: the release container, the IPC frame decoder, the coalescing
command mailbox and the installer's file replacement. `dafny verify dfyconfig.toml` checks everything.

Each module follows one source file. A function on values says what a step does (`React`, `RunOnce`,
`Decide`, `Suppress`, ...); a class with the source's fields does it in place, and its methods are proved
against that function; the theorems are about that function over whole runs. Everything the outside
decides (how dials, probes and system calls end, how much time passes, what is sampled) is an argument
or a nondeterministic choice, so every theorem holds for all of it.

| module | source | subject |
|---|---|---|
| Supervisor | src/supervisor.rs | the reducer |
| SupervisorRuns, BeliefRuns | src/supervisor.rs | its lives: outstanding work, deadlines, beliefs, toasts |
| TakeoverRuns, BeatRuns, AirRuns, DebounceRuns | src/supervisor.rs | its lives: what the wireless takeover waits for, demands and remembers |
| WirelessBrain | src/wireless/mod.rs | takeover decisions and their debounce |
| Watchdog, Backoff | src/watchdog.rs, src/backoff.rs | dialling, probing, retry schedule |
| Notifications | src/supervisor/notification.rs | toast ledger |
| Shell, ServiceRuns | src/runtime.rs | drain loop, executor, composition of all of the above and its lives |
| WirelessWorker | src/runtime.rs | the wireless lane over the egress |
| Egress, Routes | src/wireless/egress.rs, routes.rs | route and metric ledgers over the OS tables |
| Payload, Names | src/payload.rs | container format, entry names |
| Mailbox, Protocol | src/ipc/commands.rs, protocol.rs | command mailbox, frames, event ring |
| FileBackup | src/setup/file_backup.rs | crash-safe replacement and rollback |

The main results, hardest first:

- the composed service never dials over a session or an unplugged cable and never rests with its
  deadline unarmed, and its drain loop terminates (`Shell.ServiceIsSafeAndArmed`, `Shell.Drained`);
- end to end, whatever the outside answers: every delay the watchdog asks for is kept between its steps,
  so failed dials really back off (`ServiceRuns.RedialsAreSpaced`); every event fed is handled and every
  effect demanded is executed, once and in order, and the supervisor's session is the watchdog's
  (`ServiceRuns.EveryEventIsHandled`, `ServiceRuns.ServiceCarriesOut`); a manual redial hangs up and dials
  (`ServiceRuns.RedialDials`, `Watchdog.RedialIsHonoured`);
- over every run of the supervisor, what it believes and remembers is what it was last told
  (`BeliefRuns.BeliefIsTheLastReport`, `AirRuns.MemoryIsTheLastReport`), and every beat does what one table
  of phases says and demands exactly that (`BeatRuns.EveryBeatFollowsTheTable`, `AirRuns.BeatsDemandExactly`),
  with logins retried after 5, 15, then 30 seconds (`AirRuns.RetriesFollowTheCount`);
- whatever fails in between, a successful release gives back the route table if and only if no row found
  there was taken over, and every interface's metric if and only if no press abandoned an interface that
  was still pressed (`Egress.WirelessEgress.CleanGivesBack`, `Egress.WirelessEgress.Release`,
  `Egress.AnyLife`); a login contacts the portal over exactly the routes it asked for, or not at all,
  and a lane that ends in a teardown leaves nothing behind (`WirelessWorker.WirelessWorker.RunLane`);
- single outstanding work, unfragmented backoff, honest waiting, fresh kicks, throttled toasts, and
  exact debounce, over every run of the supervisor;
- exact acceptance of containers and a round trip with its exact limit (`Payload`), chunk-invariant
  decoding (`Protocol.Decode`), no lost wake-up in any interleaving (`Mailbox`), and replacement that is
  recoverable in every intermediate state (`FileBackup`).

Where the code does less than one might expect, the model follows the code and says exactly when:

- a metric flap between two interfaces loses the first one's original pair
  (`Routes.RestoredIffNothingAbandoned` is the exact condition over whole runs,
  `Routes.SuppressIsHonest` for one press, `Routes.FlapLosesTheOriginal` an instance);
- for the adapter a route that already exists counts as installed, so one that was there before the
  service is removed with it: exactly those rows are missing afterwards
  (`Egress.WirelessEgress.CleanGivesBack`, an instance `Egress.TakesOverAndRemoves`);
- with one destination named twice an acquisition may get all its routes and be refused
  (`Egress.WirelessEgress.Acquire` says exactly when, `Egress.OneAddressTwice` and
  `WirelessWorker.RefusedForNothing` are instances);
- the footer counts entries in 32 bits, so a round trip holds exactly below 2^32 entries
  (`Payload.PackThenUnpack`, an instance beyond `Payload.TooManyDoNotComeBack`);
- `join_since_ms` survives a re-join, so an association that is over a minute old sends a fresh join
  straight back to Off (`TakeoverRuns.BeatEndsTheWait` says exactly when,
  `TakeoverRuns.LateRetryFallsBackToOff` is a run that does it);
- `release` reports its first attempt at the metric, and a release that was already pending makes two:
  a clean result is reported as a failure exactly when the first of two attempts failed and the second
  succeeded (`Egress.WirelessEgress.Release`, at an input `Egress.LateSuccessIsNotReported`).

## Model

| member | source | states |
|---|---|---|
| Shell.ServiceIsSafeAndArmed | src/runtime.rs:586-763 | in every life of the service, whatever the outside answers: each dial was made with no session in hand and over exactly the link state the supervisor held, never a known-unplugged cable; whenever the loop rests, no sample is in flight, no step is half begun, a deadline is armed, the watchdog's link flag is the supervisor's, and the executor's own timer is set within 2 s of the last event and no later than a deadline still ahead; the composed history is a run of the supervisor, so every theorem about runs applies to it |
| Shell.RestIsShort | src/runtime.rs:713-721 | at rest the executor's timer, not just the supervisor's wish, lies between the last event and 2 s later, and no later than a deadline still ahead |
| Shell.ServiceKeepsTime | src/runtime.rs:546-549 | in every life the executor's timer is the wake-up the supervisor asked for after the last event |
| Shell.DueWakeRunsTheWatchdog | src/runtime.rs:713-763 | a wake-up handled at or after the armed deadline makes the watchdog run before the loop rests again |
| Shell.StopHangsUp | src/supervisor.rs:842-854 | in every life that has met a Stop, at rest the supervisor is stopped, no session is held and no timer is set, and no later event makes the watchdog run again |
| Shell.ReactionWeighsLess | src/supervisor.rs:351-401 | in whatever state, the effects demanded for an event weigh strictly less than the event: the measure that makes the drain loop terminate |
| Shell.MicroDecreases | src/runtime.rs:546-571 | every pop and every executed effect, with its fed-back answer, lowers the total weight of queue and pending effects, or keeps it and shortens the effects |
| Shell.Drained | src/runtime.rs:546-571 | the drain function ends with an empty queue for every starting queue and every answer of the outside |
| Shell.MicroKeepsInv | src/runtime.rs:467-571 | the joint invariant of supervisor, watchdog, dialer, queue and dial log survives every smallest step of the drain loop |
| Shell.DrainKeepsInv | src/runtime.rs:546-571 | and therefore every whole drain |
| Shell.ServiceInv | src/runtime.rs:705-763 | and therefore every life of the service: Started first, then any outer events one at a time |
| Shell.StepLogsSafely | src/runtime.rs:467-480 | a watchdog step over the supervisor's own link state logs only safe dials |
| Shell.ReactTellsTheLink | src/supervisor.rs:499-556 | a change of the link state is told to the watchdog by the first effect of that very reaction, and by nothing else |
| Shell.ReactFromRest | src/supervisor.rs:431-497 | an outer event handled at rest opens a debt (sample, step) only together with the effect that pays it |
| Shell.ReactToResult | src/supervisor.rs:499-563 | a result settles the debt it answers; a step due is demanded or its deadline re-armed |
| Shell.PopKeepsDebts | src/runtime.rs:546-553 | popping one event keeps the ledger of debts and the order in which outer events are fed |
| Shell.ExecKeepsDebts | src/runtime.rs:556-569 | executing one effect moves its debt from the effects to the queue and loses none |
| Shell.Shell.Drain | src/runtime.rs:546-571 | the executor object's loop computes exactly the drain function and terminates |
| Shell.Shell.Handle | src/runtime.rs:547-555 | one pop: the supervisor object reacts, its effects and wake-up are taken over |
| Shell.Shell.Execute | src/runtime.rs:556-569 | one effect: run in line, forwarded to the worker, or kept for shutdown once stopping |
| Shell.Shell.ExecuteMain | src/runtime.rs:467-541 | each Main-lane effect changes exactly what the source changes and answers with the source's event |
| Shell.Shell.StepDog | src/runtime.rs:469-477 | a watchdog step is executed and answered as the specification says, with the delay the step returned and the session it left; that the supervisor arms its deadline with exactly that delay and believes exactly that session is ServiceRuns.DeadlineIsTheWatchdogs and ServiceRuns.ServiceCarriesOut |
| ServiceRuns.RedialsAreSpaced | src/runtime.rs:470-476 | in every life of the service: after a dial that failed transiently the watchdog is left alone for the scheduled delay of the failures it then shows, after one that succeeded for a probe interval, unless a manual redial was handled or the cable came back in between |
| ServiceRuns.StepsAreSpaced | src/runtime.rs:470-476 | between any two watchdog steps of any life lies the delay the first one returned, with the same two exceptions |
| ServiceRuns.DeadlineIsTheWatchdogs | src/runtime.rs:470-476 | at rest the deadline is the instant the last step's answer was handled plus the delay that step returned |
| ServiceRuns.ServiceCarriesOut | src/runtime.rs:546-571 | in every life, at rest: every effect ever demanded was executed, once and in order; the watchdog has lived exactly the calls demanded of it; the worker's lane, with what is kept for shutdown, holds exactly the worker's effects; the mode in force is the one saved; and while it runs the session the supervisor believes in is the watchdog's |
| ServiceRuns.RedialDials | src/supervisor.rs:478-487 | a redial command that reaches a running service at rest is carried out before it rests again: whatever session there is is hung up, and the line dialled unless the cable is known to be out |
| ServiceRuns.EveryEventIsHandled | src/runtime.rs:713-763 | in every life the outside events handled are the start and then exactly the events fed, in order |
| ServiceRuns.EveryRequestIsAnswered | src/runtime.rs:467-541 | in every life, at rest, each step, sample and toast that was asked for has been answered and the answer handled, once and in the order of asking, and nothing was answered that was not asked |
| ServiceRuns.ServiceIsTruthful | src/runtime.rs:467-541 | in every life each sample, toast report and watchdog answer handled says what the outside said |
| ServiceRuns.ModeIsPersisted | src/supervisor.rs:488-497 | in every run of the supervisor the mode in force is the last one demanded to be persisted, or the configured one |
| ServiceRuns.ServiceSound | src/runtime.rs:546-571 | the joint history of supervisor, watchdog, queue, lane and clock, kept by every smallest step of every life: demands against deeds, answers against steps, steps against deadlines |
| ServiceRuns.ExecAnswersTruly | src/runtime.rs:467-541 | a watchdog step is answered by exactly one event, with its own delay and the session it leaves |
| ServiceRuns.ReactCalm | src/supervisor.rs:431-563 | a reaction that demands a step leaves no deadline, no pending step and no sample out |
| Supervisor.Supervisor.On | src/supervisor.rs:351-401 | the reducer object: new state, effects in order and wake-up are those of the reducer on values, for every event in every state; before Started and after Stop it is inert |
| Supervisor.Supervisor.HandleStarted | src/supervisor.rs:431-447 | first beat: deadline and link poll now, stale routes cleared and the WLAN sampled when the takeover is on |
| Supervisor.Supervisor.HandleWakeWired | src/supervisor.rs:449-468 | a due deadline becomes a pending step behind one fresh link sample; a missing answer only moves the poll |
| Supervisor.Supervisor.HandleWakeAir | src/supervisor.rs:469-475 | the two-second wireless beat, without a second sample while one is out |
| Supervisor.Supervisor.HandleCommand | src/supervisor.rs:478-497 | redial at once, or switch the mode everywhere and persist it |
| Supervisor.Supervisor.HandleLinkSampled | src/supervisor.rs:499-556 | known link states are replaced by definite samples only; the cable coming back redials at once; a pending step is taken |
| Supervisor.Supervisor.HandleWatchdogStepped | src/supervisor.rs:558-592 | the answer of a step is taken over as the specification says; that the session, the address and the failing-since stamp are the last reported is BeliefRuns.BeliefIsTheLastReport, when the toast goes out is BeliefRuns.FailingRedialsAreTold |
| Supervisor.Supervisor.HandleWirelessSampled | src/supervisor.rs:594-645 | one beat of the takeover over a fresh sample, ignored when none was asked for |
| Supervisor.Supervisor.CarryOut | src/supervisor.rs:648-729 | what each decision of the brain demands, including the failures on the spot that end the beat |
| Supervisor.Supervisor.UpdateMetric | src/supervisor.rs:735-751 | on every beat that sees a WLAN exactly one thing is demanded for its metric: release if and only if the mode is exclusive and the wire is healthy, otherwise suppression to the configured value on the interface just seen; nothing without a WLAN |
| Supervisor.Supervisor.CheckJoin | src/supervisor.rs:630-643 | the sixty-second join timeout, counted from the last finished association |
| Supervisor.Supervisor.HandleAssociateFinished | src/supervisor.rs:753-763 | an awaited answer starts the join clock, success or not |
| Supervisor.Supervisor.HandlePortalFinished | src/supervisor.rs:765-794 | an awaited answer feeds the brain in whatever phase and voids the cached verdict |
| Supervisor.Supervisor.HandleProbeFinished | src/supervisor.rs:796-806 | an awaited answer becomes the cached verdict |
| Supervisor.Supervisor.HandleHeartbeat | src/supervisor.rs:808-819 | a heartbeat error asks for a toast, throttled by the ledger |
| Supervisor.Supervisor.HandleWirelessDied | src/supervisor.rs:821-840 | the wireless side is buried with everything in flight |
| Supervisor.Supervisor.HandleStop | src/supervisor.rs:842-854 | Stop hangs up, and tears the wireless side down if it is alive |
| SupervisorRuns.SingleOutstanding | src/supervisor.rs:449-806 | in every run, between two demands for the same work (link sample, wireless sample, association, login, probe, each toast) lies an accepted answer to it, and no reaction demands it twice; stray, late and repeated answers do not count |
| SupervisorRuns.DemandsAreCovered | src/supervisor.rs:449-806 | in every prefix of every run, each kind of work was demanded at most once more often than its answers were accepted, and not more often while none is out |
| SupervisorRuns.IgnoredStep | src/supervisor.rs:499-806 | an answer that is not awaited reopens nothing |
| SupervisorRuns.DemandStep | src/supervisor.rs:449-806 | one event demands a kind of work only when it is not out, and once out it stays out until answered |
| SupervisorRuns.BusyWasDemanded | src/supervisor.rs:449-806 | whatever the supervisor waits for, in every reachable state, was really demanded and has not been answered since |
| SupervisorRuns.StaysClosed | src/supervisor.rs:449-806 | work demanded stays out along a run until its answer is accepted |
| SupervisorRuns.WiredStep | src/supervisor.rs:449-563 | a watchdog step is demanded by a redial, by the cable coming back, or by a due deadline after its fresh sample, and by nothing else; what each event does to deadline, pending step and link state |
| SupervisorRuns.BackoffIsNeverFragmented | src/supervisor.rs:449-562 | after a step asked for a delay, no storm of events brings the next step forward, except a Redial or the link's down-to-up edge |
| SupervisorRuns.DeadlineHeld | src/supervisor.rs:449-562 | the deadline a step set is kept or consumed when due, never replaced |
| SupervisorRuns.TimerStepsAreBudgeted | src/supervisor.rs:431-562 | timer-driven steps are at most one more than answered steps; deadline and pending step are never both set |
| SupervisorRuns.LinkStaysKnown | src/supervisor.rs:513-525 | once known, the link state never reverts to unknown |
| SupervisorRuns.WakeWindow | src/supervisor.rs:420-429 | after every event the next wake-up is at most 2 s away, and after a Wake strictly in the future: neither oversleeping nor spinning |
| SupervisorRuns.WakesForTheFirst | src/supervisor.rs:420-429 | the wake-up asked for is the first instant at which a poll, a deadline or a beat is due, or now if one is; there is none before the start and after the stop |
| SupervisorRuns.PollSoon | src/supervisor.rs:431-556 | the link poll is never more than 2 s away |
| SupervisorRuns.AirStaysInItsLane | src/supervisor.rs:200-221 | the events of the wireless lane demand wireless-lane effects only |
| BeliefRuns.BeliefIsTheLastReport | src/supervisor.rs:478-592 | in every run: the session is the one carried by the last answered step, the link the last definite sample asked for, the address the last report of either, failing-since the first failing answer since a connected one, the mode the last commanded, the heartbeat the last reported |
| BeliefRuns.DueIsDemanded | src/supervisor.rs:449-556 | in every run a wake-up demands exactly the samples that are due and not out; an awaited link sample leads to a step if and only if one was pending or the cable came back; a redial demands the request and a step, a mode its persistence |
| BeliefRuns.WakeDemands | src/supervisor.rs:449-475 | what a wake-up leaves: the step a due deadline becomes, and both timers moved exactly when they were due |
| BeliefRuns.FailingRedialsAreTold | src/supervisor.rs:565-592 | in every run the redial-failing toast goes out with a step's answer if and only if steps have failed for ten minutes, the cable is not to blame, none is out and none was delivered during the last half hour |
| BeliefRuns.HeartbeatErrorsAreTold | src/supervisor.rs:808-819 | in every run a heartbeat error is told if and only if no such toast is out and none was delivered during the last half hour |
| BeliefRuns.AllowedWhenQuiet | src/supervisor/notification.rs:26-49 | the ledger lets a toast out if and only if none of its kind is out or was delivered during the last half hour |
| BeliefRuns.DeliveryIsRemembered | src/supervisor/notification.rs:14-24 | the ledger remembers nothing that was not delivered |
| BeatRuns.EveryBeatFollowsTheTable | src/supervisor.rs:594-729 | in every run, in either mode, each beat does what the table of phases says: standby comes up from Off, a lost association or address is made good, a due retry associates, a probe goes out if and only if it is due and none is out, an outstanding login is waited for, and a healthy wire in exclusive mode demands nothing but, perhaps, to let go |
| BeatRuns.StandbyComesUp | src/wireless/mod.rs:170-171 | in every run an accepted standby beat from Off demands an association if and only if none is out, and ends in Joining, or in Off exactly when the last association was answered over a minute ago |
| BeatRuns.ProbesGoOutOverTheSample | src/supervisor.rs:713-729 | a probe goes out over the address and gateway just sampled |
| AirRuns.BeatsDemandExactly | src/supervisor.rs:594-751 | in every run a beat demands one thing of the worker over the sample just taken (nothing, an association, a teardown and release, a login with its egress and three seconds of settling, or a probe) and then exactly one metric change if a WLAN is seen: pressed while it is wanted, let go while it is not; a beat whose login fails on the spot demands nothing |
| AirRuns.RetriesFollowTheCount | src/wireless/mod.rs:111-126 | in every run a login that ends badly, also on the spot for want of a gateway, is retried 5 s after the first failure in a row, 15 s after the second and 30 s from the third on; one that ends well leaves nothing due and no probe remembered |
| AirRuns.FailuresAreCounted | src/wireless/mod.rs:111-126 | in every run the brain's failure count is the number of logins that failed since the last success, saturating at 32 bits, and its mode is the supervisor's |
| AirRuns.FirstBeatProbes | src/wireless/mod.rs:202-216 | in every run the first beat after a successful login demands a probe if and only if none is out, provided the WLAN is wanted and still there and no Kicked verdict has come in |
| AirRuns.MemoryIsTheLastReport | src/supervisor.rs:594-840 | in every run: the cached verdict is the last probe's unless a login ended, the WLAN was let go or the worker died since; the join clock is the last answered association's unless it ran out, the WLAN was let go or the worker died since; the sample is the last beat's; and the takeover is alive if and only if it is configured and its worker was never reported dead |
| AirRuns.StartsAndStops | src/supervisor.rs:431-854 | in every run a start arms the wire at once and, for a takeover that can work, clears stale routes and looks around; a stop hangs up and, for one that is alive, tears down and leaves; a report of death demands nothing |
| AirRuns.BeatKeeps | src/supervisor.rs:594-733 | what a beat leaves of counters, verdict, join clock and sample, by the brain's decision |
| TakeoverRuns.TakeoverNeverWaitsOnNothing | src/supervisor.rs:594-806 | in every reachable state: auth_busy says Authing; Authing means the login is out; Joining means the association is out or its timeout runs; Error means a retry is due within 30 s of the last event |
| TakeoverRuns.BeatEndsTheWait | src/supervisor.rs:594-733 | the first beat that can end a wait ends it: due retries associate, an address starts the login or schedules a retry, a stale join starts over |
| TakeoverRuns.RetryIsNeverPutOff | src/wireless/mod.rs:111-126 | a retry is fixed 5 to 30 s after the failure that caused it, and nothing that happens while in Error puts it off |
| TakeoverRuns.BeatDemandsTheDecision | src/supervisor.rs:594-729 | a beat demands an association, a release, a login or a probe if and only if the brain decided so and nothing of the kind is out; routes are torn down right before the WLAN is left |
| TakeoverRuns.AnswerEndsTheWait | src/supervisor.rs:765-794 | in every run, an answer to the login that is out finds the takeover alive and ends the wait in whatever phase it comes: Online for a reply of success or already-online, otherwise Error with a retry 5 to 30 s away; no login is left out and no earlier verdict survives |
| TakeoverRuns.OnlyTheLivingWait | src/supervisor.rs:821-840 | in every reachable state a dead takeover has no sample, association, login or probe out |
| TakeoverRuns.StaleJoinsEnd | src/supervisor.rs:626-645 | in every run, no beat leaves the takeover joining on an association answered over a minute ago |
| TakeoverRuns.LateRetryFallsBackToOff | src/supervisor.rs:626-643 | a run of seven events whose last one demands a fresh association and at once falls back to Off, because the join clock of the old association was never cleared |
| TakeoverRuns.ReloginConsumesAFreshKick | src/wireless/mod.rs:192-198 | each re-login from Online answers to its own Kicked verdict, heard after the last finished login and after the previous re-login |
| TakeoverRuns.KickedOrigin | src/supervisor.rs:765-806 | a cached Kicked verdict was heard after the last finished login |
| TakeoverRuns.OnlineOrigin | src/supervisor.rs:765-794 | a brain that is Online was put there by an answered login and has stayed |
| TakeoverRuns.VerdictStep | src/supervisor.rs:594-806 | where verdicts and Online phases come from, event by event |
| TakeoverRuns.ToastsAreThrottled | src/supervisor/notification.rs:14-49 | any two delivered toasts of one kind are at least 1,800,000 ms apart, over every run |
| TakeoverRuns.ToastBudget | src/supervisor/notification.rs:14-49 | a stretch of L ms delivers at most 1 + L / 1,800,000 toasts of a kind |
| TakeoverRuns.InFlightIsQuiet | src/supervisor/notification.rs:26-49 | while a toast is out, the previous delivery of its kind is half an hour old |
| TakeoverRuns.LastDelivery | src/supervisor/notification.rs:14-24 | a delivery is remembered until a later one; failures open no window |
| WirelessBrain.TakeoverIsDebounced | src/wireless/mod.rs:136-167 | over every run and across every mode switch: in exclusive mode the brain leaves Off if and only if the wired side was unhealthy on every exclusive beat of a span of at least takeover_after |
| WirelessBrain.ReleaseIsDebounced | src/wireless/mod.rs:136-167 | and lets go if and only if it was healthy on every exclusive beat of a span of at least release_after |
| DebounceRuns.TakeoverIsDebounced | src/supervisor.rs:594-625 | in every run of the supervisor, a beat in exclusive mode from Off demands an association if and only if none is out and the wired side was unhealthy on every exclusive beat of a span of at least takeover_after |
| DebounceRuns.ReleaseIsDebounced | src/supervisor.rs:594-625 | and demands to let go if and only if it was healthy on every exclusive beat of a span of at least release_after |
| DebounceRuns.StampStep | src/supervisor.rs:351-401 | no event but an accepted beat in exclusive mode touches a since-stamp of the living takeover |
| DebounceRuns.StampOpensStreak | src/supervisor.rs:594-625 | along a run of the supervisor a since-stamp is the time of the first beat of an unbroken streak |
| WirelessBrain.SustainedByStamp | src/wireless/mod.rs:136-167 | the since-stamp measures exactly the sustained health |
| WirelessBrain.StampOpensStreak | src/wireless/mod.rs:136-167 | a since-stamp is the time of the first beat of an unbroken streak |
| WirelessBrain.StreakIsStamped | src/wireless/mod.rs:136-167 | throughout a streak the stamp is set and at least as old as the streak |
| WirelessBrain.StampStep | src/wireless/mod.rs:136-167 | a contrary beat clears a stamp, a beat of its kind sets it once, and nothing else touches it |
| WirelessBrain.AlwaysCoherent | src/wireless/mod.rs:111-234 | in every reachable state: auth_busy iff Authing, a retry time iff Error, no probe remembered in Off, and the two stamps are never both set |
| WirelessBrain.Brain.Beat | src/wireless/mod.rs:136-167 | one decision, under a monotone clock, without any subtraction underflowing |
| WirelessBrain.Brain.Keep | src/wireless/mod.rs:169-218 | keep_wireless as the specification says; what each phase demands over whole runs is BeatRuns.EveryBeatFollowsTheTable |
| WirelessBrain.Brain.AuthFinished | src/wireless/mod.rs:111-126 | the answer of a login as the specification says; the retry times over whole runs are AirRuns.RetriesFollowTheCount |
| WirelessBrain.Brain.Join | src/wireless/mod.rs:220-226 | start_join |
| WirelessBrain.Brain.Restart | src/wireless/mod.rs:228-234 | reset_off |
| Watchdog.StepIsSafe | src/watchdog.rs:158-277 | one step, whatever the world answers: bookkeeping survives, a dial never runs over a held session or an unplugged cable |
| Watchdog.AlwaysValid | src/watchdog.rs:158-284 | in every run: a held session means Connected, since is set iff Connected, at most one bad probe pends, the shown attempts are the backoff counter |
| Watchdog.DelayIsScheduled | src/watchdog.rs:262-276 | every transient failure waits the scheduled delay for the number of failures shown |
| Watchdog.DelaysGrow | src/watchdog.rs:262-276 | without a reset in between, later failures never wait less |
| Watchdog.DropNeedsTwoBadProbes | src/watchdog.rs:197-219 | in every run, a step that hangs up over a probe found it bad, and the step right before it had found the same session's probe bad |
| Watchdog.DelayByOutcome | src/watchdog.rs:158-277 | the delay of a step, read off what it last did to the outside: probe, recheck, dial outcome, or a cable known to be out |
| Watchdog.AttemptsGrow | src/watchdog.rs:158-277 | the failure count only falls at a reset |
| Watchdog.ResetNeedsStability | src/watchdog.rs:184-195 | the count is forgotten only after Alive probes worth at least 300 s since the last dial or drop, and then both counters are zero |
| Watchdog.StableMeansAlive | src/watchdog.rs:184-195 | the stability clock is the probe interval times the Alive answers of this session |
| Watchdog.StabilityStep | src/watchdog.rs:175-284 | what one step does to the stability clock, read off its probes, hang-ups and dials |
| Watchdog.StableSessionsForget | src/watchdog.rs:184-195 | and a session that has answered Alive for 300 s worth of probe intervals does forget the failures |
| Watchdog.StepActs | src/watchdog.rs:158-277 | the operations of every step, in order: a requested redial hangs up a session that is there and dials; a session gone in RAS, or twice badly probed, is hung up and redialled; a good or once badly probed one is left alone; without a session it dials; and every dial waits for a cable known to be out |
| Watchdog.StepShows | src/watchdog.rs:279-284 | the session shown after every step, read off its last operation: status, since when, the reason of the last drop and the attempts |
| Watchdog.RedialIsHonoured | src/watchdog.rs:150-168 | in every run the first step after a redial request hangs up whatever session there is, dials unless the cable is known to be out, and clears the request |
| Watchdog.GoodSessionsStay | src/watchdog.rs:175-196 | in every run a held session that RAS reports connected over an Alive probe is hung up only if a redial was asked for since the step before |
| Watchdog.EveryThirdRestarts | src/runtime.rs:122-151 | in every run RasMan is restarted by exactly every third dial in a row that ended in 756 or 813, and no step dials twice |
| Watchdog.StuckDialsAreCounted | src/runtime.rs:122-151 | the stuck-port counter is the number of stuck dials in a row, modulo three |
| Watchdog.Watchdog.Step | src/watchdog.rs:158-173 | run_once on the object: state, delay and outside operations as specified |
| Watchdog.Watchdog.StepWhileConnected | src/watchdog.rs:175-220 | step_connected on the object, in the order hang up, dial |
| Watchdog.Watchdog.DialNow | src/watchdog.rs:222-277 | do_dial on the object, including the unplugged-cable gate |
| Watchdog.Watchdog.NoteDrop | src/watchdog.rs:279-284 | record_drop |
| Watchdog.RealDialer.Dial | src/runtime.rs:122-151 | session ownership and the stuck-port counter, and whether RasMan is restarted, as the specification says |
| Watchdog.RealDialer.HangUp | src/runtime.rs:154-160 | the session is let go |
| Backoff.ScheduleMonotone | src/backoff.rs:21-25 | more failures never wait less, and every delay lies between the bounds |
| Backoff.ScheduleOfTheService | src/backoff.rs:35-47 | from 1 s with a cap of 300 s: doubling for nine failures, then the cap |
| Backoff.Backoff.NextDelay | src/backoff.rs:21-25 | the n-th call returns the n-th value of the schedule |
| Backoff.Backoff.Reset | src/backoff.rs:27-29 | the schedule starts over |
| Notifications.NotificationLedger.Result | src/supervisor/notification.rs:14-24 | the two vectors refine a set and a map: a result closes its toast, a delivery opens the window |
| Notifications.NotificationLedger.Notify | src/supervisor/notification.rs:26-49 | a toast goes out exactly when none of its kind is out and its window is over |
| Egress.AnyLife | src/wireless/egress.rs:75-173 | any calls in any order, on any interfaces, over system calls that fail at any time, then one release: the state is a valid one with exactly these presses and destinations behind it; a reported success gives back the route table but for the rows taken over, and every interface unless a press abandoned a pressed one (with one target: if and only if none did); over a table that works success is certain and the rows taken over are exactly those found there that were asked for |
| Egress.WirelessEgress.CleanGivesBack | src/wireless/egress.rs:119-173 | in every state with nothing of the service left: the route table is the one found minus the rows taken over, so it is the one found if and only if none was; the interfaces are as found if no press abandoned a pressed one, and with one target only then |
| Egress.TakesOverAndRemoves | src/wireless/routes.rs:50-57 | an input where the route table is not given back: a route to one of the service's destinations that was there before is gone after a release over a table that works |
| Egress.WirelessEgress.RetryCleanup | src/wireless/egress.rs:91-116 | succeeds if and only if nothing is pending afterwards, and always over a table that works; gives up no wanted row; loses no saved metric |
| Egress.WirelessEgress.Sweep | src/wireless/egress.rs:93-107 | unwanted rows leave both ledgers when the adapter lets them, and all of them do over a table that works; wanted rows stay |
| Egress.WirelessEgress.Acquire | src/wireless/egress.rs:119-139 | success exactly when nothing pends and every destination's try succeeded, and always over a table that works; then the ledger holds exactly the wanted routes, and with nothing pending it holds them if and only if each destination that failed came up again and succeeded; the rows taken over are exactly the rows found there |
| Egress.WirelessEgress.InstallAll | src/wireless/egress.rs:121-134 | the loop over the destinations: every try is recorded, a success is a row in the ledger, a failure one that was not there |
| Egress.OneAddressTwice | src/wireless/egress.rs:119-139 | an input with one address for two destinations: a first try that fails and a second that succeeds leave all routes in place and a failure reported |
| Egress.WirelessEgress.Install | src/wireless/egress.rs:122-132 | one destination: at most its own row is added, failure means it is missing and cannot happen over a table that works, and a row that was found there counts as taken over |
| Egress.WirelessEgress.Release | src/wireless/egress.rs:165-173 | reported exactly when no row is left and the first attempt at the metric succeeded, always over a table that works; the result is clean exactly when no row is left and one of the at most two attempts succeeded, and a clean result gives the operating system back as CleanGivesBack says |
| Egress.LateSuccessIsNotReported | src/wireless/egress.rs:91-116 | an input where the pending release's first attempt fails and its second restores everything |
| Egress.WirelessEgress.ReleaseMetric | src/wireless/egress.rs:154-162 | success, no pending flag and no saved metric are the same thing, and success restores every interface |
| Egress.WirelessEgress.SuppressMetric | src/wireless/egress.rs:145-152 | pressing withdraws a pending release and keeps the endpoint to retry with; target 0 changes nothing |
| Egress.WirelessEgress.OwnDestinations | src/wireless/egress.rs:75-80 | new destinations: rows still wanted stay, none is added, a pending release is retried once, and over a table that works nothing is left pending |
| Routes.RestoredIffNothingAbandoned | src/wireless/routes.rs:121-184 | over any run of presses and restores with any failures: once nothing is saved, every interface is original if no press abandoned a pressed interface; with one target, if and only if none did, for what is abandoned is never regained |
| Routes.TrackedOrLost | src/wireless/routes.rs:121-184 | over any run with one target: until an interface is abandoned every pair is original or restorable from the saved one, and from then on one interface stays wrong for good |
| Routes.NothingAbandonedNothingLost | src/wireless/routes.rs:121-184 | over any run with any targets: without an abandoning press everything can still be undone |
| Routes.SeveralTargetsMayRegain | src/wireless/routes.rs:121-184 | with several targets the converse fails: an abandoned interface pressed back to its own value by chance |
| Routes.SuppressIsHonest | src/wireless/routes.rs:121-151 | pressing keeps every original pair restorable if and only if it does not abandon another interface that is still pressed |
| Routes.FlapLosesTheOriginal | src/wireless/routes.rs:128-145 | the flap i, j, i loses the pair of i: release then reports success and leaves the service's own metric |
| Routes.RestoreIsHonest | src/wireless/routes.rs:153-184 | a restore, however it fails, keeps the promise; it succeeds iff nothing is saved afterwards, and then everything is original |
| Routes.GoodLuckIsExact | src/wireless/routes.rs:121-184 | after any run with one target, failures and all: a press that is let through leaves exactly that interface at the target with its pair saved, an undo that is let through puts exactly the saved pair back and forgets it, and even a failing undo forgets what was pressed |
| Routes.AppliedIsPressed | src/wireless/routes.rs:121-151 | in every run what the guard remembers as pressed really holds the target |
| Routes.RouteGuard.AddRoute | src/wireless/routes.rs:214-221 | ledger and table move together; a listed row is not installed twice |
| Routes.RouteGuard.DeleteRoute | src/wireless/routes.rs:223-227 | ledger and table move together; a failed delete keeps the row |
| Routes.RouteGuard.SetStandbyMetric | src/wireless/routes.rs:121-151 | the original is read once per interface, the metric written once per press |
| Routes.RouteGuard.RestoreMetric | src/wireless/routes.rs:153-184 | value first, automatic flag second, and any failure keeps the saved pair |
| Routes.WithoutIsExact | src/wireless/routes.rs:223-227 | the retained rows are exactly the others, still without duplicates |
| WirelessWorker.WirelessWorker.RunLane | src/runtime.rs:264-292 | over every lane the supervisor can produce, the log of logins grows by exactly the logins of the lane, in order: each contacts the portal if and only if the acquisition of the endpoint it asked for was accepted, and then the service's routes are exactly those, installed; over a table that works each one does; what a final login met is the state left behind; exactly the lane's metric presses are made, in order; over a table that works, a lane whose last word on the egress is a teardown leaves no row and no saved metric, so the routes are the ones found minus those taken over and every interface is original unless a press abandoned one, and a lane whose last word on the metric lets it go leaves no saved metric |
| WirelessWorker.WirelessWorker.RunEffect | src/runtime.rs:316-380 | an acquisition is remembered with what it left pending, how each try went and the rows it got; a press is made on the interface and with the target asked for, and over a table that works it is applied; letting the metric go undoes it exactly when the restore succeeds; a teardown releases the egress, over a table that works completely; settling changes nothing; a login contacts the portal if and only if the acquisition was accepted, and is logged with the ledger and the route table at that moment |
| WirelessWorker.RefusedForNothing | src/runtime.rs:343-347 | with the portal and the probe on one address, an acquisition that got every route may be refused |
| WirelessWorker.WirelessWorker.Retry | src/runtime.rs:269-283 | idle retries never spoil an acquired egress, press nothing, and over a table that works leave nothing pending |
| WirelessWorker.LaneAlwaysShaped | src/supervisor.rs:686-712 | in every life of the service each login in the lane comes right after its acquisition and its settling time |
| WirelessWorker.ReactionShape | src/supervisor.rs:686-712 | and the login's address, gateway and interface come from one WLAN sample |
| Payload.PackThenUnpack | src/payload.rs:38-135 | unpacking a packed image returns exactly the entries, in order, if and only if their number fits the 32-bit count; the setup program stays in front unchanged |
| Payload.TooManyDoNotComeBack | src/payload.rs:61-67 | 2^32 empty files under distinct names are packed without complaint and do not unpack to what was packed |
| Payload.UnpackIsExact | src/payload.rs:70-135 | unpack accepts a file as these entries if and only if it is a container of them |
| Payload.NotPackedIffNoMagic | src/payload.rs:70-76 | a file counts as an ordinary program if and only if the magic does not stand sixteen bytes before its end; any other unpacks or is reported corrupt |
| Names.ValidIsGood | src/payload.rs:25-36 | a name passes the byte-level check if and only if its characters are a good name: not empty, no separator, no colon, no control character, no two dots in a row |
| Names.Utf8IsExactlyText | src/payload.rs:104-107 | the bytes taken for a string are exactly the UTF-8 encodings of sequences of Unicode scalar values (section 3 of RFC 3629) |
| Payload.UnpackSound | src/payload.rs:70-135 | whatever unpacks is tiled by its entries without gap or trailing byte, every datum ends at or before the table, every digest matches |
| Payload.UnpackComplete | src/payload.rs:70-135 | every container unpacks to its entries, passing the 51-bytes-per-entry check |
| Payload.ParseAllComplete | src/payload.rs:88-132 | a listed table parses back, and is at least 51 bytes per entry long |
| Payload.ParseAllSound | src/payload.rs:98-132 | a parsed table is byte for byte the table of what came out |
| Payload.ParseOneSound | src/payload.rs:99-130 | one parsed entry is valid, in range, checksummed and re-encodes to the bytes read |
| Payload.ParseOneComplete | src/payload.rs:99-130 | one written entry reads back |
| Payload.UnpackFile | src/payload.rs:70-135 | the reading loop with its cursor computes the specification on arbitrary bytes |
| Payload.ParseTable | src/payload.rs:96-132 | the table loop, with its cursor, reads one entry per count and refuses leftovers |
| Payload.Pack | src/payload.rs:38-67 | the image, or a refusal exactly for invalid, repeated or over-long names |
| Payload.WriteAll | src/payload.rs:47-67 | the writing loop builds data and table side by side |
| Payload.CheckNames | src/payload.rs:39-45 | every name valid, none twice |
| Payload.ImageIsContainer | src/payload.rs:38-67 | what is packed is a container of what was packed |
| Payload.OffsetsLocate | src/payload.rs:47-60 | each recorded offset finds its datum |
| Payload.FromLeOfLe | src/payload.rs:52-65 | little-endian numbers read back |
| Payload.LeOfFromLe | src/payload.rs:77-82 | and are the only encoding of their value |
| Mailbox.NeverAsleepOnMail | src/ipc/commands.rs:37-62 | in every interleaving of any number of senders with the receiver: pending mail implies a wake token or a party between its two steps |
| Mailbox.MailIsDelivered | src/ipc/commands.rs:37-62 | pending mail is delivered by at most three steps of parties already on their way |
| Mailbox.LatestModeWins | src/ipc/commands.rs:37-62 | delivered modes, with the pending one, are a subsequence of the sent ones ending in the last sent |
| Mailbox.RedialIsCovered | src/ipc/commands.rs:37-62 | every redial sent is pending or covered by a later batch |
| Mailbox.RedialWasSent | src/ipc/commands.rs:50-60 | no batch invents a redial |
| Mailbox.BatchIsOrdered | src/ipc/commands.rs:52-60 | a batch asks for the pending mode, if any, first, and for the pending redial, if any, last, each at most once |
| Mailbox.NothingIsLeftBehind | src/ipc/commands.rs:50-51 | the receiver hears that all senders are gone only with nothing pending |
| Mailbox.CommandChannel.LockAndUpdate | src/ipc/commands.rs:38-43 | first half of send |
| Mailbox.CommandChannel.WakeAndUnlock | src/ipc/commands.rs:44-46 | second half of send: a full channel is fine |
| Mailbox.CommandChannel.ReceiveToken | src/ipc/commands.rs:51 | first half of recv |
| Mailbox.CommandChannel.Receive | src/ipc/commands.rs:52-60 | second half of recv: everything at once, the mode first |
| Protocol.Decode | src/ipc/protocol.rs:132-150 | chunk invariance: however a stream is chunked, it is rejected iff some frame or the remainder exceeds 65536 bytes, and otherwise yields exactly its frames in order |
| Protocol.FrameDecoder.Feed | src/ipc/protocol.rs:132-150 | one chunk: all frames completed and the remainder kept, or rejection for good; frames of a rejected chunk are dropped |
| Protocol.CutIsUnique | src/ipc/protocol.rs:132-150 | there is one way to cut a stream into frames and a newline-free remainder |
| Protocol.CutIsCut | src/ipc/protocol.rs:132-150 | and the frames are that cut |
| Protocol.CutInStages | src/ipc/protocol.rs:132-150 | cutting in two stages needs only the remainder of the first |
| Protocol.EncodedOneByOne | src/ipc/protocol.rs:109-118 | the k-th frame written is the k-th message and a newline |
| Protocol.EncodeThenDecode | src/ipc/protocol.rs:109-150 | messages within the limit, encoded one after another, come back as many frames, the k-th being the k-th message and its newline |
| Protocol.EventLog.Push | src/ipc/protocol.rs:173-185 | the ring is always the last twenty lines pushed |
| FileBackup.Installer.ReplaceFile | src/setup/file_backup.rs:71-140 | at every intermediate state the old contents are at the path or under the .old sibling, or the complete new bytes are at the path, and no other file is touched; success means exactly that one file changed; failure leaves one of four listed states, and while the destination and its .old name work everything is as before; no staged file that can be removed is left; a healthy destination succeeds; a directory is never moved |
| FileBackup.Installer.Publish | src/setup/file_backup.rs:109-137 | from the staged file to the verdict: every state in between is crash-safe |
| FileBackup.Installer.Swap | src/setup/file_backup.rs:115-135 | retain, publish, and undo the first when the second fails: while the destination and its .old name work, a failure puts everything back |
| FileBackup.Installer.Stage | src/setup/file_backup.rs:89-107 | a free staging name is found, however many are taken |
| FileBackup.Installer.RestoreFile | src/setup/file_backup.rs:49-67 | success means the captured contents (or absence) are back; what is as captured already is not written at all |
| FileBackup.Restore | src/setup/file_backup.rs:33-46 | no reported failure means every captured path is restored; a failure skips no other path; unobstructed paths never fail; nothing the disk held is lost at any point |
| FileBackup.Capture | src/setup/file_backup.rs:13-29 | each path once, in order of first mention, with its exact contents or its absence; a directory fails the capture, and only directories and faulty paths do |
| FileBackup.RestoringOne | src/setup/file_backup.rs:33-46 | putting one file back loses nothing of any other |
| FileBackup.FirstsAreDistinct | src/setup/file_backup.rs:15-18 | the captured paths are the given ones, without repetition |

## Left out

- Integer widths of clocks: times are natural numbers of milliseconds; saturation at 2^64 ms is not modelled. Counters that saturate at 32 bits (`attempts`, `auth_fail_count`, the backoff counter) are.
- Snapshot publication: `compose`, the change gate of `publish`, the wording of event lines and `last_error` texts are not modelled; the event ring itself is.
- Wording of errors, reasons and logs: failures keep the distinctions the code acts on, such as dial codes and drop reasons, and no text. `Payload.Packed` has a single refusal.
- Windows, RAS, WLAN, ICMP and HTTP calls: they succeed or fail as the outside decides. A restart of RasMan is recorded with the dial that caused it; how it ends changes nothing.
- Stop races: cancellation of running work, lane capacity, the five-second worker timeout and tokio scheduling are not modelled; the lane and the event queue are unbounded and in order. A stop signal that clears a non-empty queue cannot arise, because the loop feeds one event at a time to an empty queue.
- Stale route cleanup at start: `CleanupStaleRoutes` runs before the service owns any row and is not modelled on the route table.
- RouteGuard's own `ensure`, `teardown` and the two `Drop` implementations: not reached by the worker's effects.
- Foreign changes: nobody else edits the service's routes or the pressed interfaces while it runs, nor the installer's files while it replaces them.
- Egress.AnyLife: if presses used several targets, which the service's configuration rules out, only one direction is stated, because the other is false (`Routes.SeveralTargetsMayRegain`).
- Payload digests: SHA-256 (section 6.2 of FIPS 180-4) is any function from bytes to 32 bytes. The image length and table offset stay below 2^64, as file sizes do.
- JSON: a serialised message is any byte string without a raw newline.
- Mailbox poisoning: a panicking holder of the mutex is not modelled; the source takes the data over in that case.
- FileBackup paths: destinations are not named like the installer's own staging files, have a parent directory, and `Path::exists` answers truly; symbolic links count as neither regular files nor missing. The order in which failures are listed is not stated.
- FileBackup.Restore: the texts of the collected failures are reduced to their paths.
- The installer transaction (src/setup/transaction.rs), portal replies, probe targets, heartbeat packets, configuration and the user interfaces: fixed layouts, library parsing or one-branch facts.
- Watchdog.Watchdog.Step: the `dial_calls` test counter and logging are not modelled.
