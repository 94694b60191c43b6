# Session machinery of blesession, modelled and proved in Dafny

The project models how one Bluetooth LE session is run, watched, bounded,
retried and reported, and proves what the library promises about it.

The environment is a single-threaded event loop with a FIFO ready queue.
Everything it may do (deliver a frame, drop the link, cancel a task, let time
pass, let a backend call return, raise or hang) is data: a schedule or a
script that is quantified over, so each theorem speaks of every behaviour.
`Unfinished` is the outcome of a call that is still suspended when its
schedule ends.

| file | what it models |
|---|---|
| `Ble.dfy` | bytes, errors, outcomes, the drop event, the client and the writes issued on it |
| `WaitMachine.dfy` | the tasks and callbacks one wait for a notification races, step by step |
| `TimedWait.dfy`, `Waits.dfy` | what one wait, and `next`, `wait_for`, `next_burst` and the wait of `request`, come to along a schedule |
| `Notifications.dfy` | the `Notifications` object, whose methods do just that |
| `Transfer.dfy` | the guarded write and the chunked transfer |
| `Subscribe.dfy` | subscribing with recovery, and the subscription around a body |
| `KeyOrder.dfy`, `OrderedMap.dfy` | lists of keys, an insertion-ordered dict |
| `Trace.dfy` | the `SessionTrace` class against a recursive meaning of nested stages |
| `TraceSteps.dfy` | the same code run one step at a time, which comes to the same |
| `Session.dfy` | `ble_session`, link ownership, the registry of drop events |
| `Stages.dfy` | the stage vocabulary and the blame rule |
| `Attempts.dfy` | the attempt loop, its lock marks and the state it carries |
| `FairLock.dfy` | `asyncio.Lock` with any number of jobs |
| `LockHold.dfy` | an attempt in time, under a bound that fires once |
| `Reports.dfy` | a session's report key by key, its kind, the fallback report |
| `ReportKeys.dfy` | what a report says under each of its keys |
| `ReportOrder.dfy` | the order of a report's keys, and exactly which facts and notes keep it |
| `Accounting.dfy` | the report slots, and what they count over interleaved runs |
| `Attribution.dfy` | the blame from the failed stage to the published report |

The hardest results:

- **A frame is never lost, duplicated or reordered**, whatever happens between
  the moment a get task takes it and the moment the waiter resumes
  (`FramesConserved`, `NextIsFifo`), **a drop is reported only after every frame
  that came before it was consumed** (`DeliveryBeatsDrop`), and **a wait with
  something to end on ends** within three iterations of the loop
  (`WaitEndsInThreeIterations`, `TurningEndsTheWait`). A wait is stopped, or is
  about to be, exactly when its deadline has come or it was cancelled, and then
  lasts three iterations at most (`WaitExplained`, `CalledWaitEndsSoon`,
  `CalledWaitEnds`). Timed waits are runs of
  that machine in which a timer fires once, at any step (`WaitIsARun`), so also in
  the window the requeue repairs (`WindowReached`, `WindowRepaired`). The methods
  that wait end in exactly the state, at the time, at the place in the schedule
  and with the outcome that functions over the schedule give, and what these mean
  is proved of the functions (`WaitExplained`, `SiftExplained`, `BurstExplained`,
  `ReplyExplained`).
- **The lock is held for at most** the attempt bound, one unsubscribe bound per
  nested subscription and one disconnect bound, wherever the bound fires
  (`LockHoldBound`), and no smaller bound holds (`LockHoldBoundIsReached`).
- **A fresh link comes up, the block runs, the link is closed and each stage is
  timed** exactly when the script says so, a stale close that fails included
  (`Host.BleSession`); nested stages that raise and are caught, run one step at a
  time, leave just what `SessionTrace.Run` leaves (`RunStepByStep`).
- **No link is stranded** over any sequence of sessions (`Host.RunJobs`), and
  the drop event registered for a client is set exactly when its callback has
  fired since its connect returned (`Host.WatchExact`, kept by every method).
- **The blame for every exit path** is computed once, independently of the code
  (`Session.Blamed`), shown to be what the trace ends up with (`SessionBlame`)
  and followed into the published report, through a fired attempt bound
  (`PublishedBlame`).
- **Over any interleaving of finished runs, `failures` is the number of runs
  whose last attempt failed** (`FailuresAreFailedRuns`).

Two promises of the documentation hold under a condition on the caller's own
facts and notes; both are stated as an if-and-only-if over every outcome a
session with those facts and notes can have:

- every report has its keys in the documented order
  (`src/blesession/report.py:164-165`), each at its first place, exactly when
  facts and notes use none of the report's own keys but `operation` and
  `success` (always there already), notes use no radio key that facts lack, and
  `retrying`, if used, is the first new fact with no radio fact beside it
  (`InOrderExactlyWhenOrderly`; `LateErrorNote` is an input where the order breaks);
- a report is counted as the attempt it describes exactly when facts and notes
  avoid `skipped`, `error` and `retrying` (`CountsRightExactlyWhenHarmless`).
  The fallback report always counts right (`FallbackCountsRight`).

`_close` says it never raises (`src/blesession/session.py:239`); its handler
catches `Exception`, so a cancellation does get out. The model follows the code.

No lemma relies on automatic induction; every induction is written out.

## Model

| member | source | states |
|---|---|---|
| WaitMachine.NextInv | src/blesession/notifications.py:211-241 | Every step of the loop (arrival, drop, cancellation, any callback, start of a wait, `clear`) keeps the invariant: frames are conserved, each live task has exactly the callbacks its state calls for, nothing is parked that has something to do, and a pending get runs ahead of the drop. |
| WaitMachine.NextIsFifo | src/blesession/notifications.py:206-241 | Each step refines a plain FIFO queue: an arrival enqueues, a wait that returns a frame dequeues the head, `clear` empties, and nothing else, the requeue included, changes what is unread. |
| WaitMachine.FramesConserved | src/blesession/notifications.py:206-241 | Over any schedule, arrivals are the consumed frames followed by the unread ones, in order. |
| WaitMachine.WindowRepaired | src/blesession/notifications.py:236-240 | Where the get task has taken a frame and the wait raises instead of returning it, the frame is back at the head of the queue and nothing is consumed. |
| WaitMachine.WindowReached | src/blesession/notifications.py:236-240 | A schedule of arrival, get and timeout does reach that window. |
| WaitMachine.TakenIsReturned | src/blesession/notifications.py:226-232 | A frame the get task took is returned by a wait that does not raise, whatever else has finished by then. |
| WaitMachine.DeliveryBeatsDrop | src/blesession/notifications.py:211-241 | Whatever the schedule, a wait that raises `SessionDropped` does so after the drop and with every frame that arrived before it already consumed. |
| WaitMachine.NoLostWakeup | src/blesession/notifications.py:217-241 | In every reachable state with a running wait and a frame queued, the drop set or the waiter resolved, the ready queue holds a callback chain that ends the wait. |
| WaitMachine.ChainStep | src/blesession/notifications.py:217-241 | That chain survives every step that does not end the wait, and each loop iteration brings it one closer. |
| WaitMachine.WaitEndsInThreeIterations | src/blesession/notifications.py:217-241 | A wait that has something to end on cannot outlast three iterations of the loop, whatever else is scheduled, cancelled or received. |
| WaitMachine.TurningEndsTheWait | src/blesession/notifications.py:217-241 | And it does end if the loop just keeps turning. |
| Notifications.Notifications.constructor | src/blesession/notifications.py:48-62 | The object watches the event it was given, else the one registered for the client, and starts empty. |
| Notifications.Notifications.Clear | src/blesession/notifications.py:97-102 | Returns everything queued in order, empties the queue, and is the machine's clear step. |
| Notifications.Notifications.RequeueFirst | src/blesession/notifications.py:206-209 | Puts a frame in front of all queued ones. |
| Notifications.Notifications.BeginWait | src/blesession/notifications.py:217-226 | The code up to the first suspension is the machine's start step. |
| Notifications.Notifications.ResumeWait | src/blesession/notifications.py:227-241 | The code from resumption to return or raise, `finally` included, is the machine's wake-up step. |
| TimedWait.WaitExplained | src/blesession/notifications.py:211-241 | Over any schedule, the scope's timer firing at any step of it: a delivery takes exactly one frame, every other end none, and all else that the schedule delivered is unread in order; a drop is reported only after all earlier frames; the time is that of the schedule up to the deadline; and a wait is stopped, or raises when it resumes, exactly when its timer has fired or the schedule cancelled it: as expired without a cancellation of that kind, as cancelled with one. |
| TimedWait.DeadlineStopsTheWait | src/blesession/notifications.py:104-114 | Begun before its deadline, a wait has been stopped, or raises when it resumes, exactly when its clock shows the deadline or it was cancelled. |
| TimedWait.CancelCondemns | src/blesession/notifications.py:226-240 | A cancellation condemns a running wait at whatever point it comes, the waiter already resolved included, and nothing that happens after it lets the wait return. |
| TimedWait.CalledWaitEndsSoon | src/blesession/notifications.py:104-114 | A wait whose deadline has come, or that was cancelled, or that has a frame or the drop to end on, lasts three iterations of the loop at most, whatever the schedule goes on with. |
| TimedWait.CalledWaitEnds | src/blesession/notifications.py:104-114 | And it does end if the loop keeps turning, as stopped if it was rung or cancelled. |
| TimedWait.DropIsNext | src/blesession/notifications.py:217-222 | With nothing queued, a drop that is already set is reported at once. |
| TimedWait.QueuedIsNext | src/blesession/notifications.py:217-218 | A queued frame is delivered at once, before any entry of the schedule. |
| TimedWait.WaitIsARun | src/blesession/notifications.py:211-241 | Every timed wait is a run of the machine over the steps of its stretch of the schedule, the timer's cancellation put in once or not at all. |
| Notifications.Notifications.NextFrame | src/blesession/notifications.py:211-241 | The object's state, the time, the place in the schedule and the outcome are those of `WaitFrom`, so all that `WaitExplained` says. |
| Waits.NextExplained | src/blesession/notifications.py:104-114 | `next` returns the one frame it took, with neither its deadline nor a cancellation in the way; any cancellation makes it raise `CancelledError`, the deadline alone `NotificationTimeout`, and without either only the drop ends it, with all earlier frames consumed. If the schedule is over first, it is about to raise exactly in the first two cases. |
| Notifications.Notifications.NextWithin | src/blesession/notifications.py:104-114 | Does exactly what `NextFrom` says, so the timeout is raised whenever the deadline comes first. |
| Waits.SiftExplained | src/blesession/notifications.py:187-204 | `wait_for` takes exactly the frames `accept` turns down and then the first one it takes or raises on; with all turned down its one deadline over all the waits, a cancellation and the drop end it as they end `next`, and nothing else does. |
| Notifications.Notifications.WaitFor | src/blesession/notifications.py:187-204 | Does exactly what `SiftFrom` says, frames taken included. |
| Notifications.Notifications.BurstRound | src/blesession/notifications.py:130-139 | Does exactly what `RoundFrom` says: one `clear`, then one wait of at most the gap, or none. |
| Waits.BurstExplained | src/blesession/notifications.py:116-140 | A returned burst is the in-order join of a non-empty prefix of the unread arrivals, all else that arrived is unread in order, and no time passes beyond the deadline; without a first frame it fails exactly as `next` does, and after it exactly a cancellation makes it raise. |
| Waits.BurstEndsForCause | src/blesession/notifications.py:130-139 | Once it has a frame, a burst returns at the end of a gap of silence since its last frame or at the deadline, or earlier on a drop with everything from before it taken; never later: one still waiting is being stopped exactly when that time is up or it was cancelled. |
| Waits.BurstWithoutGap | src/blesession/notifications.py:130-134 | With gap 0 a burst is one wait and then one `clear`: the first frame and what is queued when it comes, nothing else awaited. |
| Waits.QueuedBurst | src/blesession/notifications.py:130-134 | With gap 0 and frames queued they are the burst, and no time passes. |
| Notifications.Notifications.NextBurst | src/blesession/notifications.py:116-140 | Does exactly what `BurstFrom` says, frames taken included. |
| Notifications.Notifications.Send | src/blesession/notifications.py:169-182 | With the drop set nothing changes and nothing is written; otherwise everything received so far is discarded, exactly one write is issued, the loop goes on as the schedule says while the write and the pause last, and a failure is that write's own or a cancelled pause. |
| Waits.ReplyExplained | src/blesession/notifications.py:171-185 | The reply arrived after everything that had arrived when the request began and is the first frame since then that `accept` takes, or the first there is; its timeout counts from when the wait began, the write and the pause having passed; without a reply the deadline, a cancellation or the drop ended it, each as it ends `next`. |
| Notifications.Notifications.Request | src/blesession/notifications.py:142-185 | No write is issued once the drop is set; a request that gets no further than its write or its pause fails as these did; any other does exactly what `ReplyFrom` says from where the pause ended, and its reply's arrival index is at or after the arrivals at its start. |
| TimedWait.WaitingStep | src/blesession/notifications.py:211-241 | Every loop step of a running wait keeps what the wait has promised so far. |
| TimedWait.OnlyCancelRaises | src/blesession/notifications.py:226-240 | A step that is no cancellation does not condemn a wait. |
| Transfer.GuardedWrite | src/blesession/transfer.py:31-67 | With the drop set nothing is issued; otherwise one write is, and its outcome is exact: own timeout renamed to a drop or a write timeout, backend errors (its own timeout included) unchanged. |
| Transfer.FinishWrite | src/blesession/transfer.py:56-67 | What each way a write can end means for the caller. |
| Transfer.SendChunk | src/blesession/transfer.py:99-118 | One round: exact outcome, what was issued and what was written. |
| Transfer.WriteChunks | src/blesession/transfer.py:70-119 | What was written is exactly the first `done` framed slices and what was issued these and at most the next, each with the link not known to be down; `on_chunk` saw 1..done, success means all slices, every stop has its cause in the round it happened, and in no round but the last that issued one did the link go. |
| Transfer.WroteAddressed | src/blesession/transfer.py:99-103 | Each write is the slice at its place, framed by `wrap` with the number of bytes in all slices before it. |
| Transfer.PiecesPartition | src/blesession/transfer.py:99-101 | The slices join to the data, each full but the last, and number ceil(len/size). |
| Transfer.PieceAt | src/blesession/transfer.py:99-101 | The slices are what the loop over offsets cuts out. |
| Transfer.ProgressBytes | src/blesession/transfer.py:99-114 | Unframed, `done` completed writes are exactly the first `done * size` bytes. |
| Subscribe.StartNotifyWithRecovery | src/blesession/subscribe.py:74-101 | At most `attempts` calls; returns exactly when the last one succeeded; each earlier try failed recoverably; one release for each stale failure that is retried and none for any other, one refresh for each that is retried; final and unknown errors unchanged; k(k-1)/8 seconds slept by try k. |
| Subscribe.WithNotifications | src/blesession/notifications.py:64-87 | A subscription that was made is released exactly once on a live link, whether settle or body failed or not, and never when it was not made; nothing but a cancelled release replaces what settle or body came to. |
| OrderedMap.PutAllKeys | src/blesession/report.py:225-289 | A dict filled entry by entry has each key once, where it was first set. |
| Trace.SessionTrace.EndStage | src/blesession/trace.py:64-72 | Pops the stage, adds its time, and records the failure only if none is outstanding. |
| Trace.SessionTrace.RecordFailure | src/blesession/trace.py:79-87 | A failure counts only if none is outstanding. |
| Trace.SessionTrace.ForgiveStage | src/blesession/trace.py:89-96 | A pardon clears the failure it names, or any. |
| Trace.SessionTrace.Run | src/blesession/trace.py:57-96 | For any tree of stages, raises and handlers the stack is restored and timings, failed stage, outcome and clock are those of the recursive meaning. |
| TraceSteps.RunStepByStep | src/blesession/trace.py:57-96 | And these are what a machine leaves that runs the code one step at a time, passes an exception up a list of open stages and handlers, and times each stage from its entry to its exit: whether it raises, the clock, every timing and the failed stage. |
| Trace.EveryStageIsTimed | src/blesession/trace.py:64-72 | Every stage that was entered or booked is timed, as often as it was, however it was left. |
| Trace.TimingsAreSums | src/blesession/trace.py:142-145 | Each timing is the sum of that name's runs, names in first-finish order. |
| Trace.ChildrenFitTheirParent | src/blesession/trace.py:57-72 | Under a monotone clock the direct children of a run take no longer together than the run. |
| Trace.FailedStageIsFirstUnpardoned | src/blesession/trace.py:79-96 | The failed stage is a given name exactly when that name was hit with no failure outstanding and not pardoned since. |
| Trace.InnermostStageWins | src/blesession/trace.py:64-69 | An escaping exception leaves an earlier outstanding failure, else the innermost stage it escaped from. |
| Trace.EscapeMarks | src/blesession/trace.py:57-72 | The marks a raising block leaves are the earlier ones and then the stages escaped, innermost first. |
| Session.Host.StillUpIsExact | src/blesession/session.py:72-83 | A client is still up exactly when it says it is connected and has reported no drop since it was opened. |
| Session.Host.Close | src/blesession/session.py:236-250 | The disconnect is requested on every path; a failure or the bound becomes the fact; only a cancellation gets out. |
| Session.Host.Settle | src/blesession/session.py:253-266 | Succeeds with the event clear, exactly the settle time spent and every round of it gone through; fails within it, in the first round that was cancelled or found the link down, all rounds before it having gone through; records the drops of just these rounds. |
| Session.Host.Open | src/blesession/session.py:174-201 | The turned-down handle is closed first; the connect returns a client exactly when nothing before it failed, and a stale close that fails or runs into its bound is no failure; the drops of failed tries are forgotten; a settle that failed in the round it did still yields the link to close; the time is that of the awaits it got to. |
| Session.Host.Begin | src/blesession/session.py:149-201 | A handle still up is reused, else closed and a fresh link opened, timed as `connect`; failure is blamed on `connect`; a hand-off is due only with the event clear. |
| Session.Host.Hold | src/blesession/session.py:203-221 | The client is handed off with its event clear; the block is timed as `session` and its failure is blamed on its own stage or `session`. |
| Session.Host.Use | src/blesession/session.py:203-221 | The block runs, and is handed the link, exactly when connecting and settling went through. |
| Session.Host.BleSession | src/blesession/session.py:149-224 | A fresh link comes up exactly when no handle is still up, the stale close was not cancelled, `close_stale` went through and the connect did: a stale close that fails changes nothing. The block runs on the reused link, or on the fresh one exactly when each look of its settle finds it connected and not dropped. Closes, hand-offs, facts, failed stage and cancellation are exact on every path; so are the timings (`connect`, the block's own, `session`, `disconnect`) and the time; a fresh link has the session's own event and every other keeps its own. |
| Session.Host.RunJobs | src/blesession/session.py:149-224 | Over any sequence of sessions, retries and drops every link opened was asked to close or is the one the caller holds, none after a session without `keep`, and every hand-off had a clear event. |
| Session.FactsOfASession | src/blesession/session.py:170-224 | Each fact after a session: `reused`, `stale_close_error`, `mtu` and `disconnect_error` exactly when and as the session noted them, every other key untouched. |
| Session.DropsRecorded | src/blesession/session.py:164-167 | The drop of a link is recorded exactly if it falls in an await the session got to while the link was known. |
| Session.DisconnectErrorFact | src/blesession/session.py:236-250 | `disconnect_error` is there with the error's text exactly when the session's own close failed or ran into its bound. |
| Session.SessionBlame | src/blesession/session.py:169-224 | From a clean trace: `connect` if the block never ran, the block's innermost stage or `session` if it raised, `disconnect` only for a cancelled close with nothing recorded before. |
| Stages.TimeoutKeepsTheBlame | src/blesession/attempts.py:136-147 | Replacing the error by the attempt timeout moves neither stage nor detail, and both survive on the error alone. |
| Stages.PrimaryNames | src/blesession/stages.py:44-59 | A primary name is its own stage whatever the map says; the map decides on any other name it knows; an unknown one comes through. |
| Stages.FailureTells | src/blesession/trace.py:110-132 | A recorded stage is the authority and its own name the detail where it says more; the error's stage and detail count where none was recorded, its detail also for that very stage. |
| Attempts.UnderLock | src/blesession/attempts.py:128-147 | What an attempt comes to for every guard, body and bound, a cancellation from outside beside the bound's included, and whether it gets out of the lock with an outcome. |
| Attempts.Decide | src/blesession/attempts.py:163-173 | `retrying` is settled, as `RetryByKind` says, before `on_attempt` sees the attempt; one whose `retry_if` raised is never handed over. |
| Attempts.RetryByKind | src/blesession/attempts.py:82-88 | By default another attempt follows exactly an error of the attempt's own that is not final, with attempts left, and never a fired bound or a declined attempt; a caller's `retry_if` decides about failures alone. |
| Attempts.OutcomeByKind | src/blesession/attempts.py:128-147 | Result, error, `timed_out`, `skipped` and failed stage for each way guard, body and bound can end: a fired bound replaces an error, and turns a cancellation of its own into one, but never takes a result. |
| Attempts.EndByKind | src/blesession/attempts.py:126-178 | Out of the loop get exactly an exception of `guard`, `retry_if` or `on_attempt` and a cancellation that was not the bound's alone; every other attempt is handed over. |
| Attempts.DictByKind | src/blesession/attempts.py:158-173 | The dict passes through the attempt function if it ran, `retry_if` if it was asked, and `on_attempt`, in that order. |
| Attempts.RoundInOrder | src/blesession/attempts.py:126-178 | Guard, attempt, release, `retry_if`, `on_attempt` and pause come in this order, each once at most and exactly when it is due. |
| Attempts.RunAttempts | src/blesession/attempts.py:91-180 | Rounds, end, attempts handed over and order of events are exact, each round as the five lemmas above say; attempts are numbered from 1, each starting from a copy of the previous one's dict as it still stands at the end of the run, in a dict of its own. |
| Attempts.LockPerAttempt | src/blesession/attempts.py:126-178 | In every run the lock covers guards and attempts only: `retry_if`, `on_attempt` and the pause find it released. |
| FairLock.NextInv | src/blesession/attempts.py:126-128 | Every request, release, cancellation and wake-up on the lock keeps it exclusive, in order, and with every request accounted for. |
| FairLock.MutualExclusion | src/blesession/attempts.py:126-147 | No two jobs are ever inside an attempt at once. |
| FairLock.NeverForgotten | src/blesession/attempts.py:126-128 | A free lock that is wanted always has its first waiter's task on the way, cancellations included. |
| FairLock.HadAtOnce | src/blesession/attempts.py:126-128 | A request gets the lock at once exactly if it is free and all that wait were cancelled; a waiter whose task runs gets it exactly if it was woken. |
| FairLock.OthersGoFirst | src/blesession/attempts.py:176-178 | A job that released the lock enters its next attempt only after every job waiting then was served or gave up. |
| LockHold.WorkInTime | src/blesession/notifications.py:64-87 | Work with nested subscriptions ends before a pending bound or is cancelled by it and then ends within the nested unsubscribe bounds. |
| LockHold.SessionInTime | src/blesession/session.py:169-224 | The same for a whole session, with the disconnect bound on top. |
| LockHold.QuietWork | src/blesession/notifications.py:64-87 | Work that is over before the bound fires takes its own course: a failure skips what follows it, a handler runs after a failure only, a subscription that was made is paid for at the end however its body ends. |
| LockHold.QuietSession | src/blesession/session.py:169-224 | A session that is over before the bound fires holds the lock for exactly its parts: a failed connect has nothing to close, and a link that came up is closed unless it was handed off to be kept, the block failing or not. |
| LockHold.PaidExactlyWhenIssued | src/blesession/session.py:222-224 | The close takes its time exactly by the rule `Session.Host.BleSession` closes by, given that the link came up and was handed off where the timed run says so; that premise is not derived from `BleSession`. |
| LockHold.CleanupByDepth | src/blesession/subscribe.py:104-124 | Only nesting adds up: the cleanup is the nesting depth times one unsubscribe bound. |
| LockHold.LockHoldBound | src/blesession/attempts.py:128-147 | The lock is held for at most the attempt bound + k unsubscribe bounds + one disconnect bound, and no longer than the attempt bound if it did not fire. |
| LockHold.LockHoldBoundIsReached | src/blesession/attempts.py:128-147 | For every k a session holds it for exactly that long. |
| Reports.Explain | src/blesession/report.py:243-264 | A fired bound gets the library's sentence, anything else the device's if it has one, else the library's; a key is there exactly with the library's own sentence, and is its key. |
| Reports.BuildReport | src/blesession/report.py:178-289 | The report built key by key is the insertion-ordered map of its own values, radio facts, other facts, stage timings and notes. |
| Reports.StageKeysAreFree | src/blesession/report.py:286-287 | No `<stage>_s` key, whatever the stage is called, hits a report or radio key. |
| ReportOrder.InOrderExactlyWhenOrderly | src/blesession/report.py:150-175 | For given facts and notes, every report, whatever the session came to, has the documented order exactly when they use no report key but those that cannot disturb it. |
| ReportOrder.WhichKeys | src/blesession/report.py:225-289 | Each key is there once; an own key exactly when it has a value or facts or notes set it, a radio key exactly when facts or notes have it. |
| ReportOrder.OutOfPlace | src/blesession/report.py:282-288 | An own key without a value that facts or notes set stands behind every own key that has one, and the order is broken if any of those belongs after it. |
| ReportOrder.LateErrorNote | src/blesession/report.py:288 | A concrete input whose order breaks: a note named `error` behind the attempt number. |
| Reports.ReportHolds | src/blesession/report.py:226-281 | Each own key holds what the session gave it unless facts or notes set it again. |
| ReportKeys.OwnKeyByKey | src/blesession/report.py:226-281 | What each own key says, `success` exactly for neither error nor skip, wherever facts and notes leave it alone. |
| ReportKeys.BlameKeyByKey | src/blesession/report.py:231-272 | Stage, detail, cause and its key: for an error only, the library's sentence for a fired bound, else the device's, else the library's, the key with the library's own. |
| ReportKeys.ExtrasPublished | src/blesession/report.py:282-289 | Notes have the last word on any key, then stage timings, then facts; a radio key holds its fact. |
| ReportKeys.TimingsPublished | src/blesession/report.py:286-287 | Each stage's seconds are there as `<stage>_s` unless a note says otherwise. |
| ReportKeys.CountsByKind | src/blesession/report.py:322-330 | Skipped, ok, retried or failed by the attempt's skip, error and retry, and `success` is true exactly for ok. |
| Reports.CountsRightExactlyWhenHarmless | src/blesession/report.py:322-330 | `classify` reads the attempt's kind back from its report, for every outcome, exactly when facts and notes avoid the three deciding keys. |
| Reports.BuildFallback | src/blesession/report.py:349-372 | The fallback is the report of the reduced attempt, key for key. |
| Reports.FallbackCountsRight | src/blesession/report.py:333-372 | The fallback always counts as its attempt. |
| Reports.FallbackAgrees | src/blesession/report.py:333-372 | It names the full report's stage, detail, error and try. |
| ReportKeys.FallbackKeyByKey | src/blesession/report.py:349-372 | What the fallback says under each key, and the keys it never has. |
| Accounting.SessionReports.Record | src/blesession/report.py:438-456 | The new slots, all of them, as a function of the old ones and the report; and still those of everything filed since the last clear. |
| Accounting.SessionReports.Clear | src/blesession/report.py:482-491 | Forgets every report and count. |
| Accounting.SessionReports.Of | src/blesession/report.py:434-436 | Finds the latest of all reports filed since the last clear that name the operation, whatever its kind, or nothing if none does. |
| Accounting.SlotsAfter | src/blesession/report.py:438-456 | After any sequence of reports `failures` counts the final failures, the failure and retry slots hold the latest of their kind whatever was filed since, and the last kind is the latest report's. |
| Accounting.LatestOfEachOperation | src/blesession/report.py:446-448 | Each operation's slot holds the latest report naming it, whatever its kind. |
| Accounting.AttemptPublished | src/blesession/report.py:292-313 | An attempt is published with its own number, error, skip and retry, and filed under its operation. |
| Accounting.FinishedRun | src/blesession/attempts.py:126-178 | What `RunAttempts` guarantees of a finished run is a run as the accounting needs it. |
| Accounting.RunCounts | src/blesession/attempts.py:163-175 | A finished run's n attempts count as n - 1 retries and then one ok, failure or skip. |
| Accounting.FailuresAreFailedRuns | src/blesession/report.py:449-452 | Over any interleaving of finished runs into one `SessionReports`, `failures` is the number of runs whose last attempt failed. |
| Attribution.PublishedBlame | src/blesession/attempts.py:136-147 | A failed attempt is published under the stage its session blames, through a fired bound as well, with the trace's detail then. |
| Attribution.UnreachedBlockIsConnect | src/blesession/session.py:174-201 | A link that never reached the block is published as `connect`, whatever the device calls its stages. |

## Left out

- Two waiters on one `Notifications` at a time: the object is used by one task, and so is the model.
- asyncio itself: its queue, event, lock, `wait` and `timeout` are modelled from their documented behaviour, not from its source. Callbacks of cancelled tasks are kept in the ready queue but only for their remaining effect.
- Timer jitter: a timer fires at its deadline, at any step of the schedule, and time stands still from there until the wait has ended.
- Notifications.Notifications.Request: does not model how long the write and the pause take, only where in the schedule they end.
- Waits.BurstExplained: an outer cancellation discards the parts collected, as in the source; the lemma says only that they were consumed.
- Subscribe.WithNotifications: does not model the frames received meanwhile, which are the schedule's, nor the time taken, which is in `LockHold.dfy`.
- Session.Host.BleSession: drops inside the block are applied at its end; the mapping of connect errors to `ConnectFailed`, the link probe and the caller's own disconnect callback are not modelled.
- Clients that cannot be weak-referenced: no drop event is registered for them, so the exactness of the registry says nothing about them. Garbage collection of the registry is not modelled.
- Session.Host.RunJobs: counts closes as requests issued, not as completed, and has one caller that passes in the handle it kept; a caller that forgets a kept handle is not modelled.
- LockHold.PaidExactlyWhenIssued: assumes, and does not prove of `Session.Host.BleSession`, that the timed run connects and hands off where the session does.
- LockHold.LockHoldBound: assumes an attempt that lets the cancellation through, an event loop that is never blocked, and no second cancellation from outside while the cleanup runs; the guard's own time is excluded.
- Attempts.RunAttempts: callbacks act on the attempt's own dict in place; one that rebinds `attempt.state` or reaches into an earlier attempt's dict is not modelled, and values in the dict are shared, as a shallow copy shares them.
- FairLock.OthersGoFirst: speaks of requests already queued when the lock is released; fairness to jobs that ask later is the lock's FIFO order alone.
- Trace.TimingsAreSums: times are exact integers; the rounding to milliseconds of `timings` is not modelled, nor are `as_dict` and `traced`.
- Reports.BuildReport: `failed_stage=` and `failed_detail=` overrides, the deprecated shapes of the cause callback, its warnings and its logging are not modelled; a callback that raises is one that has nothing to say.
- Accounting.SessionReports.Record: listeners are not modelled; they have no effect on the slots.
- `hass.py`, `link.py`, `gatt.py`, `causes.py`, the wording of `errors.py`, `const.py` and `testing.py`: probes, lookup tables, sentences and test doubles.
