# Wake coordination in the agent bridge: a Dafny model

This project models the protocols that decide which process may act for an agent, and that keep an agent's work from
being lost when harness runs fail or processes crash. It proves what they promise over every run, and, where the code
falls short of that, exactly when.

| module | models | in the source |
|---|---|---|
| `FileLock`, `LockFolder` | the crash-tolerant file lock, one file operation a step | `tryLock` |
| `SessionLedger`, `SessionTurns` | one harness session shared by many rooms | `sessionLedger` |
| `SessionWakes` | the wakes of those rooms: ledger, mailboxes and the loop's iterations together | `watchLoop`, `claimSession`, the live lease |
| `WatchLoop`, `WatchRuns` | the wake loop: offer, settlement, restart, caps, pauses and halts | `watchLoop`, `settle` |
| `LiveLease`, `LiveRuns`, `LiveListen` | one mailbox with one consumer, the work a live session returned, and the listener's loop | the live lease, `liveListen` |
| `Supervisor`, `SupervisorRuns` | the machine's daemon: restarts, rooms let go, the room's watchers | `createSupervisor` |
| `RunnerRepair`, `RunnerRoom` | replacing a room's runner, and when two come to live | `repairRunner` |
| `Versions`, `Install` | the order of versions and which one the launcher runs | `compareVersions`, `installBridge` |
| `EventFeed` | the bounded event feed and its cursors | `EventFeed` |
| `ArrivalLog` | the change logs, their cursors, and request ids spent once | `storeDecisionOps` and compaction |

Most components come in two parts. The code's own form is a class whose fields its methods update, each method proved to
do what a specification function says; for the lock, the repair and the logs the class also meets other processes' steps,
or stops, between any two of its operations. Then a machine runs those functions in every order, by any number of actors,
with crashes anywhere, and the claims are about every run of it.

What the model takes as given:

- Processes are ids with a set of dead ones; a dead one stays dead and its id isn't used again. `gone`, `alive`, `verify` and the
  process lookups may fail to tell, but never call a living process gone.
- A look at the runner goes by the pid in runner.pid, and finds that process while it lives (server/agent-cli.ts:443-446). A lookup
  of the watcher finds none but the living one watch.pid names; it may miss that one, as it does one whose command line can't be
  read and whose proof is old (server/agent-cli.ts:472-489).
- Time is an integer that doesn't go back. Bounded overtaking of rooms needs a clock that strictly increases.
- An edit of the session ledger, a lease function under its lock, and the replacement of a whole file are one step each.
- A watcher always has a generation, as `watch` sets one (server/agent-cli.ts:645).
- A watcher's items are the positions of the room's log, and `done` are those the agent answered or the room closed. The
  listen cursor is moved by a harness run before its outcome is known, by the settlement and by the live gate.
- A room's wakes are one watcher's at a time; when two watchers can live is what `SupervisorRuns` says.
- An offer names each item once. A peek offers nothing before the cursor, and of the work offered before, everything still open from the cursor on.
- The looks of a starting watcher at an earlier run never call a living run gone, and stopping a run for being past its time
  ends it. Nothing is assumed about when a settlement finds its run over: `WatchRuns.SettlesBesideARun` says exactly when it
  doesn't, and `WatchRuns.NoLostWork` is about the runs in which it does.
- A compaction in a store of an own decision or vote keeps that change, as `compactDecisions` keeps every decision and each
  member's latest vote and an own vote takes the next revision (src/browser/decisions.ts:227-228, 282-292). What else it keeps
  is any part of the log.
- A hash stands for the file it was taken of.

Where the code does less than its documentation promises, or its comments say otherwise, the model follows the code:

- A watcher whose binding ends while it waits for an earlier run settles that run's offer and forgets the run
  (server/agent-watch.ts:1370-1397, with `stopped` at server/agent-cli.ts:1272), although a comment there leaves the run to the
  next watcher. The run reads on and nobody settles it: `WatchRuns.FencedWaitLosesWork`.
- A run that doesn't stop after its timeout, or whose `onStart` throws, is settled while it goes on
  (server/agent-watch.ts:1222-1235, 1489-1552), and what it then reads is lost: `WatchRuns.GivenUpRunLosesWork`.
- A run that broke its confinement but was refused by its session before it read anything is retried like any refusal
  (server/agent-watch.ts:1520 comes before 1537): `WatchRuns.RefusedBreachOnlyWaits`.
- A repair that throws beside a runner, held from before or started by that very repair (server/agent-cli.ts:287 comes before the
  writes of 308 and 310), counts one failure and that runner's end a second, which need not be a delay apart:
  `SupervisorRuns.ThrowBesideRunner`. Starts are always paced.
- A repair that spawns a runner and can't write its pid (server/agent-cli.ts:308), or whose process dies before that, leaves a runner
  no look finds, and the next repair starts a second: `RunnerRepair.ThrownWriteDoubles`, `RunnerRepair.DeadStarterDoubles`.
- A stop of a watcher doesn't say whether it ended it, and may not: the lock stays busy, it outlasts the wait, or it is known by its
  proof of life alone (server/agent-cli.ts:509-517, 1379-1387). After a changed binding the supervisor then calls for a start beside it,
  adopts it as running the new binding (server/agent-daemon.ts:389-397), and doesn't restart it for that binding again:
  `SupervisorRuns.StopThatStopsNothing`, `SupervisorRuns.SurvivorIsKept`.
- A start of a watcher that throws after its spawn with the pid unwritten (server/agent-cli.ts:503-504) is made again after the backoff,
  beside the first: `SupervisorRuns.ThrownStartDoubles`. So is one whose lookup misses the living watcher:
  `SupervisorRuns.MissedWatcherDoubles`.
- A return written on a lease whose work was given back already keeps that mark, so what it returns is not given back:
  `LiveRuns.ReturnOnSpentLeaseIsLost`.
- More events than are kept, arriving during one wait, are skipped without `reset`: `EventFeed.FloodSkips`.
- A compaction without the member's id forgets the spent ids it drops: `ArrivalLog.CompactionForgets`.

## Model

| member | source | states |
|---|---|---|
| FileLock.MutualExclusion | server/locks.ts:39-86 | in every interleaving of single file operations by any actors, with crashes anywhere, at most one live actor holds the lock |
| FileLock.HolderKeepsItsFile | server/locks.ts:57-86 | a live holder's lock file is there and names it, in every run |
| FileLock.StepKeepsInv | server/locks.ts:31-86 | every file operation, release and crash keeps the invariant: one reclaimer, one holder, and what each actor remembers is still true |
| FileLock.CrashInTakeover | server/locks.ts:68-85 | a process that dies inside the takeover leaves both files of dead processes exactly if the lock is then a dead process's |
| FileLock.CrashBeforeRelink | server/locks.ts:81-83 | one that dies between the unlink and the relink leaves no lock: the next link takes it |
| FileLock.WedgeIsReached | server/locks.ts:57-86 | a run from a fresh folder, one holder and one reclaimer dying, that leaves both files |
| FileLock.CrashedReclaimBlocks | server/locks.ts:68-78 | with both files left by dead processes, nobody gets the lock again and both stay |
| FileLock.TakeoverAlone | server/locks.ts:80-85 | undisturbed, the takeover of a dead process's lock succeeds and leaves no marker |
| FileLock.AloneTakesFreeOrStale | server/locks.ts:57-86 | undisturbed, a call gets the lock exactly when there is none, or a dead process left it and no marker is in the way |
| LockFolder.Folder.LinkLock | server/locks.ts:39-50 | the link takes the lock exactly when no file is there; the call goes on as the machine says |
| LockFolder.Folder.Stat | server/locks.ts:33 | the first half of a look reports the file's stamp, or that it is gone |
| LockFolder.Folder.Read | server/locks.ts:33 | the second half reads the owner, possibly of another file than was looked at |
| LockFolder.Folder.Judge | server/locks.ts:35 | an owner is judged gone exactly if it is dead and the verdict says so; the next step follows the verdict |
| LockFolder.Folder.Look | server/locks.ts:31-37 | a whole look, with others' steps in between, ends at the takeover, at the replacement, or gives up |
| LockFolder.Folder.LinkMarker | server/locks.ts:68-69 | the reclaim marker is taken exactly when there is none |
| LockFolder.Folder.Replace | server/locks.ts:79-84 | under the marker the lock is replaced only while it is still the stale file seen before |
| LockFolder.Folder.TakeOver | server/locks.ts:67-85 | a takeover ends holding the lock or idle, never with its marker left |
| LockFolder.Folder.TryLock | server/locks.ts:57-86 | whatever others do meanwhile: true means the file names the caller and no other live actor holds the lock. Undisturbed, with right verdicts: true exactly if there was no lock, or a dead process's and no marker, and else the files stay as they were |
| LockFolder.Folder.Unlock | server/agent-cli.ts:108 | a release removes the holder's own file and nothing else |
| SessionLedger.Book.Tidy | server/agent-watch.ts:931-935 | every edit first drops rooms whose watcher is gone, a turn that is over and an owner whose time is up, and only those |
| SessionLedger.Book.FirstInLine | server/agent-watch.ts:981-982 | the first in line is the fresh room with the smallest place by joining time and id |
| SessionLedger.Book.Claim | server/agent-watch.ts:968-989 | a claim joins the line once, and is granted only to the first in line with nothing running, owned or halted |
| SessionLedger.Book.Started | server/agent-watch.ts:944 | the run is recorded only on the caller's own turn |
| SessionLedger.Book.Release | server/agent-watch.ts:945-960 | a release ends only the caller's own turn; a refused one keeps its place and hands the session to its owner |
| SessionLedger.Book.Withdraw | server/agent-watch.ts:963 | a room without work that saw itself in line leaves it, after the edit's own cleaning and also if it was dropped since; one that didn't edits nothing |
| SessionLedger.Book.ClearHalt | server/agent-watch.ts:992 | binding again clears the halt and the owner |
| SessionTurns.TurnStands | server/agent-watch.ts:930-986 | no edit ends or replaces a turn that isn't over, not even another room's late release |
| SessionTurns.OverEndsTurn | server/agent-watch.ts:932-933 | an edit at which the turn is over ends it; what runs then was granted by it |
| SessionTurns.TurnsExcludeEachOther | server/agent-watch.ts:924-986 | between two grants the first turn was released, asked for again by its watcher, past its time, or dead |
| SessionTurns.RunningIsSole | server/agent-watch.ts:945-986 | in every run a running turn never coexists with an owner elsewhere or a halt |
| SessionTurns.HeldBackGrantsNothing | server/agent-watch.ts:968-980 | no room is granted a session before its owner's time is up, nor a halted one before the operator binds again |
| SessionTurns.GrantsExactly | server/agent-watch.ts:968-989 | a claim is granted exactly if it saw no halt and there is none, no owner's time runs, no turn stands, and no room that lives and asked within freshMs has an earlier place; it then runs for holdMs in the place it had, and otherwise stays in line there |
| SessionTurns.BrokenSessionIsHalted | server/agent-watch.ts:945-955 | after a turn's own release with broken session records no claim is granted until the operator binds again, in every run |
| SessionTurns.RefusedSessionWaits | server/agent-watch.ts:950-953 | after a refused one none is granted for the next ownedMs, in every run without a new binding |
| SessionTurns.RefusedKeepsPlace | server/agent-watch.ts:950-954 | from its grant to its refused release, in every run: the room is in line again, ahead of everyone it was ahead of when granted and of everyone who joined since |
| SessionTurns.EndedGrantsForemost | server/agent-watch.ts:954-986 | after a turn that ended well the foremost room's next claim is granted, unless the session was halted meanwhile |
| SessionTurns.WithdrawsAlone | server/agent-watch.ts:963 | a withdrawal takes exactly its own room off the line, of those whose watchers live |
| SessionTurns.ClearedGrantsForemost | server/agent-watch.ts:992 | after a new binding the foremost room's next claim is granted as soon as no turn stands |
| SessionTurns.RecordedRunKeepsTurn | server/agent-watch.ts:932-944 | a turn whose run was recorded stands while that run lives, also without its watcher, and ends with both |
| SessionTurns.OvertakingStep | server/agent-watch.ts:930-986 | nobody joins ahead of a room that keeps asking, and each turn that ends other than by a refusal takes one off |
| SessionTurns.ReachableTakenBefore | server/agent-watch.ts:955-975 | in every run on a strictly increasing clock, places in line were taken before now |
| SessionTurns.BoundedOvertaking | server/agent-watch.ts:955-986 | while a room keeps asking, another takes at most one unrefused turn first, unless it both ran and was in line ahead |
| SessionTurns.OvertakenTwice | server/agent-watch.ts:932-986 | that exception is reached from an empty ledger: two unrefused turns of one room while another keeps asking |
| SessionTurns.AheadNeverGains | server/agent-watch.ts:955-986 | the set of rooms ahead, the running one included, never gains a member |
| SessionTurns.FrontIsGranted | server/agent-watch.ts:977-986 | with nobody ahead a claim is granted exactly if the session is neither halted nor owned |
| SessionWakes.DispatchesExactly | server/agent-watch.ts:1400-1465 | an iteration dispatches exactly if the room isn't halted, is ready, has work, is past its backoff and below both caps, no live session has its mailbox at the look before or at the claim, and the session is its to take |
| SessionWakes.WakeHasTheTurn | server/agent-watch.ts:1444-1477 | with a dispatch the running turn is that room's, taken then, its mailbox is claimed, no listener of it lives, and its offer is on record |
| SessionWakes.NoWakeKeepsNoTurn | server/agent-watch.ts:1407-1464 | an iteration that dispatches nothing takes no turn, or gives back the one it was granted, and one that stands aside leaves the line |
| SessionWakes.WakesTakeTurns | server/agent-watch.ts:924-986 | in every run of any rooms' watchers, runs, listeners, deaths and bindings, between two dispatches the first one's turn was over at some edit |
| SessionWakes.WakesNeverBesideAListener | server/agent-live.ts:184-193 | in every such run no wake is dispatched beside a living listener of its room |
| WatchLoop.Watcher.DropAnswered | server/agent-watch.ts:1336 | flagged work answered since is dropped from the obligations, and no other |
| WatchLoop.Watcher.OpenItems | server/agent-watch.ts:1338-1339 | after a failure the items offered and not answered since the first offer stay open, after a success none |
| WatchLoop.Watcher.SettleOffer | server/agent-watch.ts:1333-1353 | settling charges each open item, flags it past its budget, drops the rest, and says whether work is put back |
| WatchLoop.Watcher.AwaitRun | server/agent-watch.ts:1370-1376 | the wait for an earlier run ends at the first poll that finds it gone, past its time, or the watcher stopped |
| WatchLoop.Watcher.JudgeOrphan | server/agent-watch.ts:1357-1386 | what became of an earlier run, and whether it is stopped: over, past its time, left going, or unidentified unless the operator checked it |
| WatchLoop.Watcher.Begin | server/agent-watch.ts:1357-1397 | a restart waits, settles the offer left behind, and resumes with what outlasts a restart |
| WatchLoop.Watcher.SettleUnsettled | server/agent-watch.ts:1390 | an unsettled offer is settled as interrupted, unless an unidentified run may still be going |
| WatchLoop.Watcher.HoldOn | server/agent-watch.ts:1381-1396 | halts and hard pauses hold for their own generation only; the rest starts anew |
| WatchLoop.Watcher.Prune | server/agent-watch.ts:1432 | exactly the starts of the last hour are kept |
| WatchLoop.Watcher.FirstOffered | server/agent-watch.ts:1474 | answers count from the earliest first offer of the items |
| WatchLoop.Watcher.Turn | server/agent-watch.ts:1400-1477 | one iteration: each reason not to wake in the code's order, else the offer and the start are written before the dispatch; what it comes to is WatchLoop.DispatchesExactly |
| WatchLoop.Watcher.RunEnded | server/agent-watch.ts:1517-1575 | a finished run's state: refused, broken, halted, handled, or backing off and pausing |
| WatchLoop.Watcher.AfterSettling | server/agent-watch.ts:1527-1575 | the order of those judgements once the offer is settled |
| WatchLoop.SettledExactly | server/agent-watch.ts:1333-1353 | item by item: one left open by a failed wake is charged one offer and flagged exactly when its budget is then used up, any other the wake read is done with, answered ones are dropped, and the work is put back exactly if an open item is within its budget |
| WatchLoop.FateExactly | server/agent-watch.ts:1357-1386 | by the look that ends the wait: when an earlier run is over, when it is stopped, when it halts the watcher as unidentified, and when the wait was cut short |
| WatchLoop.StartsAnew | server/agent-watch.ts:1390-1397 | a start keeps the hour's starts and what its own generation is held by, the run and offer of an unidentified run, and nothing else |
| WatchLoop.SinceIsEarliest | server/agent-watch.ts:1474 | answers count from the earliest first offer of an item, at the latest from the dispatch |
| WatchLoop.DispatchesExactly | server/agent-watch.ts:1410-1465 | an iteration dispatches exactly if it isn't halted, is ready, has work, is past its backoff, no live session holds the mailbox, fewer starts than the cap lie within the hour, the agent's cap leaves room, and the session and the mailbox are given to it |
| WatchLoop.DispatchIsRecorded | server/agent-watch.ts:1470-1477 | a dispatch is on record with its offer, cursor and start; an iteration changes nothing else, and without a dispatch not the offer either |
| WatchLoop.CountsGoOn | server/agent-watch.ts:1432-1477 | what counts in any later hour is what did before, and a dispatch |
| WatchLoop.IterationSays | server/agent-watch.ts:1424-1458 | work given back is taken up whenever the mailbox was looked at and free; capped and busy say exactly what held the room back |
| WatchLoop.RunEndHoldsBack | server/agent-watch.ts:1517-1575 | from when on the room may wake again after each end of a run: refused, broken out, broken records, handled, or the n-th in a row that didn't handle the work |
| WatchLoop.DelaysDouble | server/agent-watch.ts:1573 | the delays of failures in a row double from backoffMs |
| WatchRuns.SettleAccountsForAll | server/agent-watch.ts:1333-1353 | after a settlement each offered item is put back, answered, covered by a success, or flagged |
| WatchRuns.NoLostWork | server/agent-watch.ts:1333-1397 | in every run with crashes between any two writes, in which each settlement finds its run over, each item ever offered is ahead of the cursor, in the offer on disk, answered, covered or flagged |
| WatchRuns.StepKeeps | server/agent-watch.ts:1400-1575 | every step, crash or restart keeps that accounting, unless it settles an offer beside a run that goes on |
| WatchRuns.SettlesBesideARun | server/agent-watch.ts:1357-1390 | when that happens, exactly: at a start, to a living run that wasn't recorded, was taken as checked, or whose wait was cut short; at the end of a wake, to one given up; or to a stray of such a settlement |
| WatchRuns.CarefulRunsLoseNothing | server/agent-watch.ts:1357-1390 | so no work is lost where no unidentified run is bound over, no waiting watcher is told to stop, wakes end with their process and, which no watcher can see, no unrecorded run is left |
| WatchRuns.SettlingBesideARunLosesWork | server/agent-watch.ts:1370-1390 | and any such settlement, at a start or the end of a wake, can lose each item it leaves unflagged, unanswered and uncovered |
| WatchRuns.GivenUpRunLosesWork | server/agent-watch.ts:1222-1235 | a run from nothing in which a wake given up while its run goes on loses an item, with no crash and no stop |
| WatchRuns.FencedWaitLosesWork | server/agent-watch.ts:1370-1397 | a run from nothing in which a wait cut short by an ended binding loses an item |
| WatchRuns.CutShortMeansStopped | server/agent-watch.ts:1372-1386 | a wait is cut short only for a watcher told to stop while the run isn't known to be gone |
| WatchRuns.WaitEndIsAPoll | server/agent-watch.ts:1372-1375 | the wait ends at one of its polls, which ends it |
| WatchRuns.PutBackCosts | server/agent-watch.ts:1338-1352 | each put-back strictly lowers what the items may still cost, even when flagged items ride along |
| WatchRuns.PutBacksEnd | server/agent-watch.ts:1338-1352 | failed wakes over finitely many items put the cursor back at most items times (maxOffers - 1) times |
| WatchRuns.DispatchKeepsSpacing | server/agent-watch.ts:1432-1433 | a dispatch below the cap keeps any max+1 starts in a row an hour apart |
| WatchRuns.SlidingHourCap | server/agent-watch.ts:1432-1477 | in every run, across crashes and restarts, no hour holds more than maxWakesPerHour wakes |
| WatchRuns.StoppedWakesNothing | server/agent-watch.ts:1393-1410 | a halt or hard pause lets nothing be dispatched under its generation, in any later iteration or watcher |
| WatchRuns.BreachStops | server/agent-watch.ts:1520-1559 | it is set exactly by a broken confinement, an approval wall or broken session records, unless the session refused the run before it read |
| WatchRuns.RefusedBreachOnlyWaits | server/agent-watch.ts:1520-1530 | a breach in a refused run pauses and halts nothing |
| WatchRuns.BreachEndsWakes | server/agent-watch.ts:1537-1559 | once a breach is judged and saved, no run of any watchers of that generation dispatches again |
| WatchRuns.AnotherBindingResumes | server/agent-watch.ts:1393-1396 | only another generation lifts it; the same one never does |
| LiveLease.Mailbox.Attach | server/agent-live.ts:115-128 | a listener is refused beside another, waits for a headless wake, or takes the lease with the work it carries |
| LiveLease.BeatRenews | server/agent-live.ts:130-138 | a heartbeat holds the mailbox through the next staleMs and keeps carried work; on anyone else's lease it changes nothing |
| LiveLease.DecisionsExactly | server/agent-live.ts:92-181 | when a wake may begin, when a listener is refused, waits or attaches with the unspent work, and when the gate gives work back: each exactly, by who is there, what window runs and what claim stands |
| LiveLease.NoLeaseHoldsNothing | server/agent-live.ts:93 | without a lease every wake may begin, every listener attaches, and nothing is given back |
| LiveLease.LateListenerHolds | server/agent-live.ts:104-106 | from the first staleMs after its heartbeat to the second a listener whose pid runs is displaced by no attach and no wake exactly if it is verified |
| LiveLease.ActingKeepsWindowOpen | server/agent-live.ts:97-103 | a return keeps wakes out through its window, and on exactly while the session acted within PICKUP_LIFE_MS, up to PICKUP_CAP_MS after the return |
| LiveLease.ReturnIsGivenBack | server/agent-live.ts:140-149 | a return keeps wakes out for its window, and a gate after it gives back the work, joined to what was carried if it read on from there |
| LiveLease.ReleaseKeepsCarriedWork | server/agent-live.ts:154-162 | a listener that ends without work leaves no lease, or one a gate gives its carried work back from at once |
| LiveLease.ClaimKeepsListenersOut | server/agent-live.ts:184-200 | a claim makes listeners wait while its watcher or recorded run lives, until its time, and its end leaves nothing |
| LiveLease.OnlyItsOwnClaim | server/agent-live.ts:195-200 | the watcher's later calls leave a listener's lease, or another watcher's claim, as it is |
| LiveLease.Mailbox.Gate | server/agent-live.ts:169-182 | the gate gives back unhandled work of an ended window and marks it, exactly then |
| LiveRuns.StepKeepsOneConsumer | server/agent-live.ts:93-201 | every lease step keeps: a live listener holds the lease attached, and an active claim is the one on file |
| LiveRuns.MailboxExclusion | server/agent-live.ts:93-148 | in every interleaving in which live listeners are looked at within staleMs of a heartbeat, or within twice that and verified, they never displace one another, and none listens beside an active headless wake |
| LiveRuns.DecisionsExclude | server/agent-live.ts:115-193 | what attach and begin answer then: refused, wait, and no begin in a pickup window |
| LiveRuns.ReturnedWorkConserved | server/agent-live.ts:115-182 | between headless claims the lease's unspent work spans exactly from the earliest unhandled return to the cursor |
| LiveRuns.GateGivesWhatIsOwed | server/agent-live.ts:169-182 | the gate gives back all that is owed, exactly when no listener is there and no window runs |
| LiveRuns.GivenBackOnce | server/agent-live.ts:177-180 | nothing more is given back until another listener returns work |
| LiveRuns.BeginAfterGateLosesNothing | server/agent-live.ts:169-193 | a wake that begins right after the gate's look overwrites no work |
| LiveRuns.DeathBeforeReturnLosesWork | server/agent-live.ts:140-148 | after a listener dies between reading on and its return, no gate in any run gives back what it read or carried |
| LiveRuns.ReturnOnSpentLeaseIsLost | server/agent-live.ts:140-148 | a return is kept exactly if its lease wasn't marked as given back |
| LiveListen.OnlyLastingTroubleEnds | server/agent-live.ts:293-301 | a runner's gap ends the listening exactly when it lasted runnerTroubleMs without any other answer |
| LiveListen.Attach | server/agent-live.ts:275-282 | the first attempt that is granted, refused or too late ends the waiting; a busy lock or a headless wake with time left doesn't, and only a grant attaches |
| LiveListen.Rounds | server/agent-live.ts:286-306 | the first round that ends the loop does, and which end it is says what that round met; before it every round read the room and met quiet or a runner's stop; the calls are exactly the slices and repairs so far |
| LiveListen.Listen | server/agent-live.ts:271-307 | the lease is handed over exactly when work is returned, with the cursors around that slice, and otherwise released last; never both |
| Supervisor.ProcRecord.Ended | server/agent-daemon.ts:303-311 | an exit counts one failure, or the first after a stable run, and puts the next start off by the delay |
| Supervisor.FailedHoldsBack | server/agent-daemon.ts:312-315 | the n-th failed start in a row holds back every start, of a runner or a watcher, by the n-th delay |
| Supervisor.ForgottenStartsAnew | server/agent-daemon.ts:317 | a process let go is looked for at the first look afterwards, nothing holds its start back, and its next failure is the first in a row |
| Supervisor.LookedAfterExactly | server/agent-daemon.ts:338-341 | the runner is looked after exactly if no backoff runs and the room is new, an exit was heard of, trouble is due, or the full check is and a lookup can be afforded |
| Supervisor.RepairPacesNext | server/agent-daemon.ts:338-361 | when the next look comes after each outcome of a repair: after one that was busy or not to be made not before the first delay or the full check's time, after one that threw as soon as its delay is over |
| Supervisor.RepairTells | server/agent-daemon.ts:342-361 | restarts count exactly the repairs made of a runner seen before, failures the repairs that threw; a runner kept is adopted, one started is held |
| Supervisor.LookTells | server/agent-daemon.ts:366-381 | another watcher found is taken to run the binding, one known already isn't; a lookup that can't tell changes no pid |
| Supervisor.LookedUpExactly | server/agent-daemon.ts:366-369 | the watcher is looked up exactly if none is held, the room is bound, and it never was, or the full check is due, or sooner after a lookup that couldn't tell |
| Supervisor.RunsWhatItSays | server/agent-daemon.ts:382-405 | a watcher started is replaced by the next look with another binding than it says it runs, and left by one with the same |
| Supervisor.StartTells | server/agent-daemon.ts:394-405 | restarts count exactly the starts of a watcher seen before; one started is held, one adopted known |
| Supervisor.TendedExactly | server/agent-daemon.ts:408-440 | a room is looked after exactly if it isn't closed, removed for the grace time, let go with this room.json, or stopped; one stopped or gone gets no call |
| Supervisor.LetGoExactly | server/agent-daemon.ts:323-332 | letting go records it first, stops exactly the watcher held, known or found, and the runner only of a removed agent; it is done once |
| Supervisor.BackInUseIsLookedAfter | server/agent-daemon.ts:421-437 | a room that connects again, or is used again after a stop, has its runner looked after at once |
| Supervisor.RoomRecord.Runner | server/agent-daemon.ts:334-362 | when the runner is looked after at all, and what each answer of the repair leaves |
| Supervisor.RoomRecord.Repaired | server/agent-daemon.ts:342-361 | the record after a repair, by outcome, with the runner it started on the way |
| Supervisor.RoomRecord.LookUpWatcher | server/agent-daemon.ts:364-381 | when the watcher is looked up, and what each finding leaves |
| Supervisor.RoomRecord.Watcher | server/agent-daemon.ts:364-406 | the calls and record of one look at the watcher: stop before start, none while unsure or backing off |
| Supervisor.RoomRecord.Started | server/agent-daemon.ts:394-405 | the record after a start, an adoption, a skip or a failure |
| Supervisor.RoomRecord.StopWatcherOf | server/agent-daemon.ts:318-322 | letting go stops the watcher held, known, or found now |
| Supervisor.RoomRecord.Visit | server/agent-daemon.ts:408-440 | one supervision: revived, let go, recalled, rested or tended, in the code's order |
| SupervisorRuns.StartsArePaced | server/agent-daemon.ts:303-316 | a start after k failures in a row comes at least the k-th delay after the last of them |
| SupervisorRuns.FailuresTakeTheirDelays | server/agent-daemon.ts:303-316 | n failures in a row take at least the sum of the delays between them, in every run in which each exit comes no earlier than the delay after the failure before |
| SupervisorRuns.CalmFailuresTakeTheirDelays | server/agent-daemon.ts:303-362 | and each does, so the sum holds, as long as no repair throws beside a runner |
| SupervisorRuns.ThrowBesideRunner | server/agent-daemon.ts:342-361 | after a repair that throws beside a runner, held before or just started, that runner's end comes in pace exactly if it lasts the delay or ran stably |
| SupervisorRuns.FirstRunnerLostAtOnce | server/agent-daemon.ts:342-361 | a run from a new supervisor whose first repair starts a runner and throws: two failures, their delay apart exactly if the runner lasts it |
| SupervisorRuns.HeldRunnerLostAtOnce | server/agent-daemon.ts:334-361 | the same for a repair that throws beside a runner started earlier |
| SupervisorRuns.CountStartsOverAfterStableRun | server/agent-daemon.ts:303-306 | the count starts over only with the end of a run of at least stableMs |
| SupervisorRuns.DelaysDouble | server/agent-daemon.ts:208-209 | the delays double from restartBaseMs up to restartMaxMs and never shrink |
| SupervisorRuns.LetGoTick | server/agent-daemon.ts:408-433 | a room let go gets no start from a look that finds it closed or its stamp unchanged |
| SupervisorRuns.LetGoStaysLetGo | server/agent-daemon.ts:323-332 | over any ticks and looks, and after a daemon restart once retire was recorded, it gets no repairRunner and no startWatcher |
| SupervisorRuns.WatcherCalls | server/agent-daemon.ts:382-405 | a look at the watcher calls a stop of the one it knows exactly if wakes are off or the binding changed, and then a start exactly when due |
| SupervisorRuns.KnownAccounts | server/agent-daemon.ts:366-381 | an exit counted and a lookup made leave a record that accounts for each living watcher of its own that isn't loose |
| SupervisorRuns.StartsBesideLooseOnly | server/agent-daemon.ts:364-440 | over any ticks, exits, daemon restarts and watchers others start, with stops that may end nothing, starts that throw after their spawn and lookups that miss: startWatcher is called last, and the living watchers the supervisor started, found or adopted are then exactly the loose ones |
| SupervisorRuns.LooseExactly | server/agent-daemon.ts:318-405 | after a visit a living watcher is loose exactly if its stop left it alive, its start threw after spawning it or its look didn't find it, or it was loose before and the visit didn't find, start or adopt it |
| SupervisorRuns.LooseSince | server/agent-daemon.ts:318-405 | in every run a watcher is loose only since a visit of which that is true |
| SupervisorRuns.NeverTwoWatchers | server/agent-cli.ts:502-507 | in every run two watchers never live, also where stops leave one alive, as long as each start writes the pid it spawns and its lookup under the lock doesn't miss the one watch.pid names |
| SupervisorRuns.SurvivorIsAdopted | server/agent-cli.ts:1364-1378 | a living watcher that a start's lookup under the lock doesn't miss is adopted or the start fails: nothing is spawned or written beside it |
| SupervisorRuns.StopThatStopsNothing | server/agent-daemon.ts:387-397 | a run from a new supervisor: the binding changes, the stop leaves the watcher alive, the start is called beside it and adopts it under the new stamp |
| SupervisorRuns.SurvivorIsKept | server/agent-daemon.ts:366-388 | and then no tick, of this daemon or a later one, stops or replaces it for that binding, while lookups find a watcher or can't tell |
| SupervisorRuns.ThrownStartDoubles | server/agent-cli.ts:502-507 | a run from a new supervisor: a start that throws after its spawn, the pid unwritten, and a second watcher beside it after the backoff |
| SupervisorRuns.MissedWatcherDoubles | server/agent-cli.ts:472-489 | a run from a new supervisor: a restarted daemon's lookups miss the watcher, and a second is started beside it |
| RunnerRepair.NeverTwoRunners | server/agent-cli.ts:954-1002 | over every interleaving of repairs, lock file operations and deaths, two runners live exactly if a lost one lives beside another; with no pid write failed, no starter dead before it and no older bridge, at most one |
| RunnerRepair.StartsInAnEmptyRoom | server/agent-cli.ts:967-994 | a start is decided on only where the recorded runner doesn't live, and none but lost ones live until it is made |
| RunnerRepair.NeedsWhenAiling | server/agent-cli.ts:947-966 | a repair is needed exactly where no runner is found, or the one found runs another version, is stuck, was found broken, or can't reach a service that answers this process, of which only its owner asks |
| RunnerRepair.LostRunnerIsDoubled | server/agent-cli.ts:281-312 | from any state whose lock can be taken: while a lost runner goes on and the recorded one doesn't, an undisturbed repair starts a second |
| RunnerRepair.ThrownWriteDoubles | server/agent-cli.ts:306-312 | a run from an empty room in which the write of a pid fails and the next repair starts a second runner |
| RunnerRepair.DeadStarterDoubles | server/agent-cli.ts:306-312 | the same where the repair's process dies before that write, and another takes its lock over |
| RunnerRepair.ReplacementsSpaced | server/agent-cli.ts:907-990 | any two recorded replacements of a stuck, broken or isolated runner are REPAIR_BACKOFF_MS apart |
| RunnerRepair.StepKeepsInv | server/agent-cli.ts:954-1002 | every step of every actor keeps it, with the lock's own invariant |
| RunnerRoom.Room.Look | server/agent-cli.ts:443-447 | a look reports the recorded runner while it lives, and the repair goes on as its decision says |
| RunnerRoom.Room.NeedsOf | server/agent-cli.ts:962-965 | why a runner needs a repair, in the code's order, the room service asked at most once and only by a command |
| RunnerRoom.Room.Wait | server/agent-cli.ts:105-109 | the wait for the runner lock ends holding it or without it; undisturbed, holding it exactly if it was there to be taken |
| RunnerRoom.Room.TryLock | server/locks.ts:57-86 | one call of tryLock among everyone's file operations ends holding the lock or idle |
| RunnerRoom.Room.Stop | server/agent-cli.ts:333-338 | a confirmed stop means the runner is gone; an unconfirmed one starts nothing |
| RunnerRoom.Room.StopFirst | server/agent-cli.ts:987-990 | a replacement is recorded once the old runner is gone, unless it was only outdated |
| RunnerRoom.Room.StartUnlessAnother | server/agent-cli.ts:991-994 | nothing is started beside a recorded runner that appeared since the stop; a start may throw before its spawn or after |
| RunnerRoom.Room.SpawnOne | server/agent-cli.ts:281-289 | a start spawns a child, with a pid or without, or throws before that |
| RunnerRoom.Room.WritePid | server/agent-cli.ts:308 | the child's pid is recorded, or the write fails, the repair throws and that runner is lost |
| RunnerRoom.Room.UnderLock | server/agent-cli.ts:970-999 | the second look and what it calls for: kept, started, unverified, backoff or replaced; undisturbed, exactly which |
| RunnerRoom.Room.RepairRunner | server/agent-cli.ts:954-1002 | the outcome says what the call stopped, recorded and spawned, in order; one that threw may have done so before any of that, after a stop or after the spawn. The call ends without the lock, and at most one runner that isn't lost lives. Undisturbed, it replaces the runner it sees exactly if that one is another version, or is stuck, broken or cut off and none was replaced within REPAIR_BACKOFF_MS, is verified, this process owns it and the lock is to be had; else it leaves the runner, and the outcome names why |
| Versions.ParseReads | server/agent-install.ts:27-28 | a version string is its parts written out |
| Versions.ParseReadsBack | server/agent-install.ts:27-28 | and every well-formed version written out is read back as itself |
| Versions.CompareIsPrecedence | server/agent-install.ts:30-44 | the order is the precedence of section 11 of Semantic Versioning 2.0.0, both ways; 0 exactly for the same parts |
| Versions.CompareTransitive | server/agent-install.ts:30-44 | it is transitive, strictly when either step is |
| Versions.IdsOrder | server/agent-install.ts:36-42 | prereleases: the first identifiers that differ decide, else the shorter comes first |
| Versions.IdOrder | server/agent-install.ts:38-41 | numeric identifiers compare as numbers and come before the others, which compare in ASCII order |
| Versions.CompareVersions | server/agent-install.ts:30-44 | the loops compute that order; a string that isn't a version is refused |
| Versions.ComparePrereleases | server/agent-install.ts:36-43 | so does the loop over the identifiers |
| Install.LauncherNamesNewest | server/agent-install.ts:225-249 | after an install the launcher names the greatest recorded version, and every recorded one's file has its hash |
| Install.NewestComesFirst | server/agent-install.ts:246 | of several recorded versions that are equally new it names the first |
| Install.ManifestAfter | server/agent-install.ts:238-245 | the manifest then holds the new entry and every other recorded one that is intact, and nothing else |
| Install.NeverMovesBack | server/agent-install.ts:240-248 | no install leaves the launcher behind a recorded intact version, or its own |
| Install.OlderNeverWins | server/agent-install.ts:225-249 | over any installs, whole or cut short between writes, and changes to other files, the launcher never falls behind an installed version |
| Install.FastIsFullWithoutChange | server/agent-install.ts:258-277 | the fast path answers exactly when the full install would change nothing, with the full install's answer |
| Install.InstallIsIdempotent | server/agent-install.ts:225-277 | right after an install the same bridge takes the fast path |
| Install.BinFolder.IntactInstall | server/agent-install.ts:258-277 | the check as written, in terms of the full install |
| Install.BinFolder.InstallBridge | server/agent-install.ts:225-249 | whichever way it goes, the folder ends as the full install leaves it, or the install was refused and changed nothing |
| Install.BinFolder.Reduce | server/agent-install.ts:246 | the reduction finds the newest |
| Install.BinFolder.Filter | server/agent-install.ts:240-243 | exactly the intact entries are kept |
| EventFeed.PushesKeep | server/local-api.ts:172-177 | the kept events are the last of all pushed, numbered in a row up to seq |
| EventFeed.TakenIsNext | server/local-api.ts:216 | a request takes the next events in a row, at most a batch |
| EventFeed.StaleMeansDropped | server/local-api.ts:213-215 | reset is said exactly for another daemon's cursor, one from the future, or one with events dropped after it |
| EventFeed.AnswerGoesOn | server/local-api.ts:209-230 | an answer leaves no event out, exactly unless more than KEPT_EVENTS arrive during its wait |
| EventFeed.AnswerMovesOn | server/local-api.ts:216-230 | an answer gives all there is or a whole batch, so a client catches up |
| EventFeed.AnswersOtherwise | server/local-api.ts:209-226 | what every other request is answered: without a cursor where the feed stands, refusals exactly for what isn't a cursor and for waits too many, a request that hung up or may not wait stays where it is |
| EventFeed.FollowsFromTheEnd | server/local-api.ts:210 | a client that asks without a cursor stands at the end of everything pushed until then |
| EventFeed.ClientIsToldEverything | server/local-api.ts:209-230 | over every run of pushes, requests and daemon restarts, a client is told exactly the events after its first cursor, in order |
| EventFeed.RestartIsNoticed | server/local-api.ts:214-215 | a client of an earlier daemon is reset by its next request |
| EventFeed.FloodSkips | server/local-api.ts:216-229 | a flood during a wait skips the dropped events without saying so |
| EventFeed.EventFeed.Push | server/local-api.ts:172-177 | a push numbers the event next and keeps the last KEPT_EVENTS |
| EventFeed.EventFeed.Take | server/local-api.ts:216 | the events after a number, at most a batch |
| EventFeed.EventFeed.Answers | server/local-api.ts:209-230 | the request's answer and the feed after it, with what arrived meanwhile |
| ArrivalLog.CursorsAndNumbers | server/browser-agent.ts:221-229 | in every run with stops between writes and any compaction, cursors never go back and no number is given to two changes |
| ArrivalLog.StepKeepsInv | server/browser-agent.ts:536-562 | every write, in the code's order, keeps the log in order and the cursor at or past its end |
| ArrivalLog.UnknownLeavesNoneOut | server/browser-agent.ts:530-563 | of the changes that come exactly those whose ids the log doesn't hold are stored, each id once and none left out |
| ArrivalLog.ReceivedIsStored | server/browser-agent.ts:530-546 | a store on the board that isn't stopped holds every change that came, behind what was there, at the next numbers; past the size it leaves what the compaction kept and a cursor behind all of them |
| ArrivalLog.SignedOnce | server/browser-agent.ts:878-889 | with a fixed member id a request's id is stored as a signed change at most once, and stays known for good |
| ArrivalLog.KnownAfterCompaction | server/browser-agent.ts:1503-1508 | after a compaction a change is still known exactly if kept, spent, or the compacting member's own |
| ArrivalLog.CompactionForgets | server/browser-agent.ts:1503-1517 | without the member's id a compaction forgets the own changes it drops |
| ArrivalLog.SignedAgain | server/browser-agent.ts:878-889 | and then the same request is signed again |
| ArrivalLog.MadeMeansStored | server/browser-agent.ts:226-228 | with stops between any two writes, a request is taken for made only if it was stored as a signed change here, or others sent it |
| ArrivalLog.MadeExactlyIfSigned | server/browser-agent.ts:878-889 | with a fixed member id both ways: a request nobody else sent is taken for made exactly if it was stored here, and once |
| ArrivalLog.PartlyIsReached | server/browser-agent.ts:558-563 | a store that stops after its n-th write is a state of the machine |
| ArrivalLog.DecisionLog.CompactLog | server/browser-agent.ts:1503-1508 | exactly the member's own dropped ids are spent |
| ArrivalLog.DecisionLog.CompactStored | server/browser-agent.ts:1510-1517 | the stored log is compacted only past its size: cursor, spent ids and log, in that order |
| ArrivalLog.DecisionLog.StoreOps | server/browser-agent.ts:558-563 | the packets are appended at the next numbers, and written in that order |
| ArrivalLog.DecisionLog.Share | server/browser-agent.ts:575-583 | an own request is made only if the device doesn't know it made |

## Left out

- The age limit of `tryLock` (`maxAgeMs`), lock files that name no process, and the fallback without hard links.
- SessionLedger.Book.Claim: the ledger's own lock and its age limit, so the answers "busy lock" and "broken ledger"; an edit is one step.
- LiveLease.Mailbox.Gate: the unlocked first look and the lock's busy answer, which shares the cursor's string type; a gate is one step.
- LiveListen.Listen: what a listen returns and how long a slice is; a heartbeat that finds the lease lost is seen by the next round, and the loop's input may run out.
- A listener whose lease went stale and then returns work, beyond `LiveRuns.ReturnOnSpentLeaseIsLost`.
- WatchRuns.NoLostWork: items that arrive between the peek and the harness's own listen aren't claimed for.
- WatchLoop.Watcher.Turn: notes, logs, heartbeats and runner checks of the loop, and the per-agent wake ledger, which is an input.
- Watchers without a generation.
- Supervisor.RoomRecord.Visit: the migration of bindings from before `enabled`, the order of rooms within a tick and its lookup budget, which is an input.
- The daemon's status reports and its own lock.
- RunnerRepair.ReplacementsSpaced: a replacement whose actor dies between the stop and the record isn't recorded, so it holds nothing back.
- Process inspection, spawning and killing, which are oracles.
- Supervisor.RoomRecord.Watcher: exceptions of `findWatcher` or `stopWatcher` midway, which leave the record as it was by then; the same for `stopWatcher` and `stopRunner` while a room is let go.
- Install.BinFolder.InstallBridge: the install lock, the page's own files and their verification; prerelease numbers are unbounded where the source loses precision past 2^53.
- `EventFeed.poll`: finding what changed in the rooms' files.
- `LocalAccess`'s tickets and session tokens, which would add only easy members.
- ArrivalLog.DecisionLog.Share: what a change says, the limits on it and its signature; a log with changes stored without numbers.
- The board's `storeOps` in place: it is the machine of ArrivalLog with the kind BOARD.
- What compaction keeps, votes, boards and reactions themselves.
- WebRTC, HTTP, MCP, the browser UI, packaging, command lines and harness output.
