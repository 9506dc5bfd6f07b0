# AttaCore verification

A Dafny model of the parts of AttaCore whose correctness does not show in any single function:
the daemon's session pool as a concurrent protocol, the compaction of a transcript against a
budget, the file-watch hub, and the small codecs at the edges. Each file is one module.

| file | what it models |
|---|---|
| `TurnSlot.dfy` | one turn at a time per session: the event receiver as a token, queueing and wake-ups |
| `Callers.dfy` | the same runs from a caller's side: whose message is sent, steered, refused or queued |
| `Rebuild.dfy` | rebuilding a session's entry while turns are run on it, and what cuts a turn off |
| `OpenQuestions.dfy` | what a running turn waits for, and what ended turns clear |
| `LockRegistry.dfy` | one lock per session id, created and removed by reference count, nested by delete |
| `Deadlock.dfy` | when a run of deletes can end with tasks waiting in a circle |
| `BindingCache.dfy` | cached project bindings, built outside the lock, invalidated when a change is notified |
| `SessionMap.dfy` | capacity, eviction and cancellation of the live map |
| `LongTurns.dfy` | turns that outlast what the pool takes for activity |
| `Deletion.dfy` | deleting a session while others resume or rebuild it |
| `FanOut.dfy` | broadcasting to subscribers over bounded queues, and open questions |
| `Wrappers.dfy` | a value that may be missing |
| `Transcript.dfy` | messages, the additive token estimate, truncation at a character boundary |
| `Utf8.dfy` | that truncation over texts encoded as in RFC 3629 |
| `Grouping.dfy` | grouping a transcript into rounds |
| `Compact.dfy` | snip, micro-compaction, collapse, their cascade, the predictive pass |
| `CompactedView.dfy` | what a reader of a compacted transcript finds, block by block and word by word |
| `Pairing.dfy` | tool calls and their results across compaction |
| `ResultBudget.dfy` | the budget for tool results, in place |
| `CachedCompact.dfy` | clearing stale results, and the ids to edit out of the cache |
| `WatchRegistry.dfy` | the reference-counted path registry, each operation in one step |
| `WatchInterleaved.dfy` | the same operations in their lock-held steps, interleaved |
| `Debounce.dfy` | debounce by generation, as a timed transition system |
| `FrameStream.dfy` | newline-delimited frames over an arbitrarily cut byte stream |
| `Semaphore.dfy` | the bridge's promise semaphore |
| `FormCodec.dfy` | form decoding against the serializer of the WHATWG URL Standard, section 5.2 |
| `Pkce.dfy` | base64url against RFC 4648, section 5, and the verifier's generator |

Code that changes state is a class or a method over an array, proved against functions of the
old state. What interleaves is a machine whose steps are the sections the source runs under one
lock, or between two awaits; `IsRun` are its runs (`IsHistory` where the machine builds on
another), and the main results hold in every state of every run. `dafny verify dfyconfig.toml` checks the whole project.

## What turned out not to hold

The code is modelled as it is. Where it does less than its comments say, the exact condition is
proved for all inputs or all runs, with an example that violates it.

| what one would expect | holds exactly when | an example where it does not |
|---|---|---|
| every running turn is reported in `current_turn` | `TurnSlot.MirrorIffNeverOvertaken`: nobody writes it during another caller's turn | `TurnSlot.IdleIsReportedWhileATurnRuns` |
| a rebuild never cuts off a turn | `Rebuild.RebuildCutsIff`: between the check and each of the two sections that cancel the old agent nobody takes the receiver and keeps it, nor, for a change of provider, has it unreported at the check | `Rebuild.AStopCutsATurn`, `Rebuild.TheSecondRebuildCutsATurn`, `Rebuild.AChangeOfProviderCutsATurn` |
| no turn is cut off | `Rebuild.NoTurnIsCutIff`: no rebuild does, no entry is removed while another caller's turn is on it, and nobody takes the receiver of an entry whose agent is cancelled | `Rebuild.ATurnBeginsOnAStoppedAgent` |
| an engine's end concerns its own turn | `Rebuild.EngineEndTakesAnotherTurnIff`: the live entry is not a newer one with its receiver out | `Rebuild.AnOldEngineEndsANewTurn` |
| a session in the middle of a turn is not idle | `LongTurns.SweepCutsShortIff`: somebody has looked it up within the timeout | `LongTurns.ALongTurnIsSwept` |
| nor the one to evict | `LongTurns.EvictionMayCutShortIff`: there is room, or some session has not been looked up since | `LongTurns.ARunningSessionIsEvicted` |
| a deleted session is gone | `Deletion.DeletedIffNotRecreated`: no turn has rebuilt it, outside the section, since it was taken out | `Deletion.ADeletedSessionComesBack` |
| a question that the running turn waits for is open | `OpenQuestions.ShownIffNotHidden`: no turn that has ended clears the questions meanwhile | `OpenQuestions.AnOpenQuestionIsHidden` |
| what was being asked dies with its turn | `OpenQuestions.PendingIffNotDropped`: some turn has cleared, or somebody answered, or the entry has been replaced or removed, since it was asked | `OpenQuestions.AQuestionOutlivesItsTurn` |
| deletes never deadlock | `Deadlock.DeadlockIffCycle`: the recorded parents have no cycle | `Deadlock.OwnSidechainDeadlocks` |
| a change to a binding's files, once notified, makes it stale | `BindingCache.MissedChangeIff`: the change and its notification do not both fall between the load of the settings it was built from and its insertion | `BindingCache.AChangeDuringABuildIsMissed`, `BindingCache.AChangeBeforeABuildIsMissed` |
| a subscription lasts until it is given up or the connection ends | `FanOut.SubscriptionLastsIff`: until then the session's entry is neither replaced nor removed, and every frame finds room | `FanOut.ARebuildDropsWatchers` |
| a watcher of a session is shown every open question | `FanOut.JoinerMissesIff`: it had been shown it before, joined before the announcement, or has subscribed since | `FanOut.AJoinerCanMissAQuestion` |
| micro-compaction is never the cascade's answer | `Compact.Compact`: not all of these: the transcript is over budget, no round is kept, the newest does not fit, and clearing old results suffices | `Compact.MicroCompactIsReported` |
| dropping whole rounds keeps every result's call | `Pairing.SuffixesKeepPairsIff`: no user text and no further answer of the model between a result and its call | `Pairing.TextBeforeResultIsOrphaned` |
| a second run of the result budget rewrites nothing | `ResultBudget.SecondRunIff`: the limit has room for the texts the first run writes | `ResultBudget.ANoteCanBeOverTheLimit` |
| the ids of a cached pass are sent with a request | `CachedCompact.HandedOutIff`: a request comes before the next pass | `CachedCompact.AnIdCanBeLost` |
| the path registry lists the keys of the live tokens | `WatchInterleaved.KeysAreRightIff`: no subscription falls between the uncounting and the dropping of a release | `WatchInterleaved.AKeyCanBeLost` |
| the paths of the live tokens are watched | `WatchInterleaved.PathsAreWatchedIff`: each path could be watched, and no release unwatches a path after a new subscription has had it watched | `WatchInterleaved.AWatchCanBeUndone` |
| at most `limit` tasks of the bridge run at once | `Semaphore.ActiveWithinLimitIff`: every woken task finds a free place as it resumes | `Semaphore.TwoAtOnceUnderLimitOne` |
| the bridge starts tasks under any setting | `Semaphore.SomethingStartsIff`: the setting is not a positive fraction below one | `Semaphore.HalfStartsNothing` |

## Model

| member | source | states |
|---|---|---|
| TurnSlot.SessionEntry.EnableIdle | daemon/src/session_pool.rs:2947-2949 | the caller listens from here on and no older notification counts; this is the machine's step |
| TurnSlot.SessionEntry.TakeEventRx | daemon/src/session_pool.rs:2950-2953 | whoever finds the receiver takes it and the slot is empty; after the machine's same step the caller holds the receiver exactly if it was found |
| TurnSlot.SessionEntry.SetCurrentTurn | daemon/src/session_pool.rs:3004-3013 | reports the turn and touches nothing else of the entry; this is the machine's step |
| TurnSlot.SessionEntry.RestoreEventRx | daemon/src/session_pool.rs:3376-3377 | the receiver is back, and nobody is told yet; this is the machine's step |
| TurnSlot.SessionEntry.ClearCurrentTurn | daemon/src/session_pool.rs:2832-2838 | no turn is reported, and everyone who listened is notified; this is the machine's step |
| TurnSlot.SessionEntry.NotifyWaiters | daemon/src/session_pool.rs:3351-3354 | the waiting become the woken, as when the engine is gone in the machine |
| TurnSlot.Next | daemon/src/session_pool.rs:2928-3020 | every step keeps the handles of callers and of the session map valid; what a step means for its caller is said in `Callers` |
| TurnSlot.TokenInvariant | daemon/src/session_pool.rs:2928-3020 | in every run the event receiver is in exactly one place: its slot, one caller, or gone with its engine |
| TurnSlot.TurnsNeverOverlap | daemon/src/session_pool.rs:2925-3020 | a user message is sent only by the one holder of the receiver, and never while an earlier turn on that channel is unfinished |
| TurnSlot.NoWakeupIsLost | daemon/src/session_pool.rs:2947-3001 | while the entry is the live one, a queued caller without a notification implies a caller that holds the receiver or has restored it and will notify |
| TurnSlot.MirrorIffNeverOvertaken | daemon/src/session_pool.rs:2830-2838 | every running turn on the live entry is reported throughout a run exactly when nobody writes `current_turn` during another caller's turn |
| TurnSlot.HolderIsReportedIff | daemon/src/session_pool.rs:3004-3013 | while nobody has overtaken, whoever has the receiver of the live entry is reported, except between taking it and the report |
| TurnSlot.ReportedHoldsIff | daemon/src/session_pool.rs:3376-3378 | in any run, a reported turn has a receiver, except between giving it back and clearing itself |
| TurnSlot.SaysWhoHoldsIff | daemon/src/session_pool.rs:2830-2838 | while nobody has overtaken, `current_turn` is exactly the holder of the channel if and only if nobody has just taken it and the reported turn is on this entry and has not given it back |
| TurnSlot.ReportedTurnIsUnfinished | daemon/src/session_pool.rs:2830-2838 | a reported turn always belongs to a caller that has not finished clearing itself |
| TurnSlot.IdleIsReportedWhileATurnRuns | daemon/src/session_pool.rs:3376-3378 | a run in which a turn is running on the only entry and none is reported |
| Callers.HowACallEnds | daemon/src/session_pool.rs:2928-3020 | a call that has returned did so for exactly one of four reasons: its message went out as a turn, a look-up found no session, the running turn took it (only from a caller that steers without attachments), or the slot was empty and it had asked to be refused |
| Callers.RejectNeverWaits | daemon/src/session_pool.rs:2955-2965 | a caller that asks to be refused is never asleep or steering, and once it has found the slot empty it is refused, without having sent anything |
| Callers.QueueIsServed | daemon/src/session_pool.rs:2994-3001 | a caller that queues never steers, and returns only with its message sent or after a look-up that found no session |
| Callers.SteerIsServed | daemon/src/session_pool.rs:2966-2993 | a caller that steers returns only so, or when the running turn took its message, which then had no attachments and is not sent again |
| Callers.WhatABusySessionMeans | daemon/src/session_pool.rs:2955-3001 | the decision after an empty slot, all three ways: refused exactly if asked for, steering exactly if allowed and not tried before, waiting otherwise |
| Callers.SteersAtMostOnce | daemon/src/session_pool.rs:2966-2993 | in no run does a caller try to steer twice |
| Callers.MessageGoesOutOnce | daemon/src/session_pool.rs:3004-3020 | in no run is the message of a caller sent twice |
| Callers.EveryAttemptLooksAgain | daemon/src/session_pool.rs:2928-2953 | between two attempts on a slot there is a look-up, and the second is on the entry live at that look-up |
| Callers.NotifiedIff | daemon/src/session_pool.rs:2832-2838 | in every run a task waits on an entry exactly if it has listened there since the last notification, and counts as notified exactly if one came while it listened and it has not listened anew |
| Callers.WakingStartsOver | daemon/src/session_pool.rs:2984-3001 | a wake-up, and a steer that is not accepted, put the caller before a new look-up |
| Callers.AQueuedCallerIsServed | daemon/src/session_pool.rs:2994-3020 | a run in which a caller finds the slot empty, waits, is woken, and has its message sent |
| Rebuild.CutsIffSlotIsEmpty | daemon/src/session_pool.rs:2337-2345 | cancelling the live entry's agent cuts off the caller that has the receiver exactly if its slot is empty in that section |
| Rebuild.HeldIff | daemon/src/session_pool.rs:2950-2953 | between any two states of a run, who has a receiver took it in between or had it, and has not given it up |
| Rebuild.RebuildFollowsACheck | daemon/src/session_pool.rs:2862-2892 | every section of a rebuild follows a check by the same caller that found no entry, or a stale one whose receiver was then in its slot, or an entry without a reported turn |
| Rebuild.StoppedUntilInserted | daemon/src/session_pool.rs:2252-2345 | a caller that has stopped the old agent may insert the new entry, and until then may not stop again |
| Rebuild.StoppedBefore | daemon/src/session_pool.rs:2252-2345 | and only a caller that has stopped it, and not inserted since, counts as having done so |
| Rebuild.RebuildCutsIff | daemon/src/session_pool.rs:2862-2892 | each section that cancels the old agent, stopping it before the history is loaded and inserting the new entry, cuts off a turn exactly when the receiver of the entry then live was taken since the check and kept, or, where only a reported turn was looked for, was held all along |
| Rebuild.StoppedRebuildCutsIff | daemon/src/session_pool.rs:2252-2253 | a rebuild with history cuts off a turn exactly if it was outrun by the time it stops the old agent, or somebody has the receiver at the insertion |
| Rebuild.NoRebuildCutsIff | daemon/src/session_pool.rs:5249-5264 | over whole runs, nobody has the receiver in any such section if and only if no check was outrun |
| Rebuild.NoTurnIsCutIff | daemon/src/session_pool.rs:2862-2892 | over whole runs, nobody ever has the receiver of an entry whose agent is cancelled if and only if no rebuild is outrun, no entry is removed under another caller's turn, and nobody takes the receiver of an entry whose agent was cancelled before |
| Rebuild.TheSecondRebuildCutsATurn | daemon/src/session_pool.rs:2878-2892 | a run in which two callers find a stale entry idle and the second rebuilds over the first one's turn |
| Rebuild.AChangeOfProviderCutsATurn | daemon/src/session_pool.rs:2563-2614 | a run in which a change of provider finds no turn reported and replaces the entry under a turn |
| Rebuild.AStopCutsATurn | daemon/src/session_pool.rs:2252-2253 | a run with one rebuild, which finds the entry idle and stops its agent under a turn |
| Rebuild.ATurnBeginsOnAStoppedAgent | daemon/src/session_pool.rs:5249-5264 | a run in which no check is outrun and a caller takes the receiver between the stop and the insertion |
| Rebuild.EngineEndTakesAnotherTurnIff | daemon/src/session_pool.rs:3351-3354 | a caller whose engine is gone takes another caller's turn down exactly when the live entry is newer than its own and its slot is empty |
| Rebuild.AnOldEngineEndsANewTurn | daemon/src/session_pool.rs:3351-3354 | a run in which the caller cut off by a rebuild ends the turn on the new entry |
| OpenQuestions.ShownIffNotHidden | daemon/src/session_pool.rs:3376-3381 | throughout a run the session shows every question that the turn on its entry waits for, exactly when no ended turn clears while one waits |
| OpenQuestions.PendingIffNotWiped | daemon/src/session_pool.rs:2820-2828 | a question still waited for on the live entry is still open exactly when nobody has cleared since it was asked |
| OpenQuestions.PendingIffNotDropped | daemon/src/session_pool.rs:3379-3381 | a question asked on a live entry is offered exactly until a turn clears, it is forgotten after an answer, or the entry is replaced or removed, whether or not its turn has ended |
| OpenQuestions.WaitsIffNotEnded | daemon/src/session_pool.rs:2650-2671 | a question asked on the live entry is waited for exactly until it is answered or given up, its turn ends, or the entry is replaced or removed |
| OpenQuestions.BlockedIffNotEnded | daemon/src/session_pool.rs:2650-2671 | a turn is blocked on its question, whatever its entry, until an answer reaches it, which needs that entry to be live, the question is given up, or the turn ends |
| OpenQuestions.ToForgetIff | daemon/src/session_pool.rs:2666-2671 | a question is taken off after an answer only, once for each |
| OpenQuestions.OnlyAwaitedOnesExpire | daemon/src/session_pool.rs:2650-2671 | what an engine gives up was asked by a turn that is still running |
| OpenQuestions.WhoClears | daemon/src/session_pool.rs:3376-3381 | a caller is about to clear the open questions exactly if it has cleared its turn without an error and has not done so yet |
| OpenQuestions.AQuestionOutlivesItsTurn | daemon/src/session_pool.rs:3321-3336 | a run in which a turn fails and its question stays open with nobody at work |
| OpenQuestions.AnOpenQuestionIsHidden | daemon/src/session_pool.rs:3376-3381 | a run that ends with a turn waiting for an answer and no question open |
| LockRegistry.SessionLocks.CloneLock | daemon/src/session_pool.rs:3998-4004 | returns the lock registered for the id, new only if there was none, and counts the clone; every state of the machine that the registry shows, counts included, goes to the machine's next |
| LockRegistry.SessionLocks.DropClone | daemon/src/session_pool.rs:4009-4009 | one reference less, as in the machine |
| LockRegistry.SessionLocks.RemoveIfUnused | daemon/src/session_pool.rs:4010-4016 | the entry goes exactly when the reference count kept for its lock is one, which is the machine's own count of clones |
| LockRegistry.CountIsOneIffNoClone | daemon/src/session_pool.rs:4011-4014 | the reference count is one exactly when no task has a clone of the lock |
| LockRegistry.Invariant | daemon/src/session_pool.rs:3993-4018 | in every run, clones are of the registered lock, owners are exactly those inside, calls nest parent before child, entries are in use |
| LockRegistry.SectionsNeverOverlap | daemon/src/session_pool.rs:3985-4018 | two sections for one id never overlap, although entries come and go |
| LockRegistry.NothingLingers | daemon/src/session_pool.rs:4009-4016 | when no call is in progress the registry is empty |
| LockRegistry.NoWaitCycle | daemon/src/session_pool.rs:4071-4103 | with acyclic parents no chain of waiting tasks closes, whatever its length |
| LockRegistry.WaitsBehindARunner | daemon/src/session_pool.rs:4191-4202 | behind every waiting task the chain of waits ends at a task whose next step is enabled |
| Deadlock.WaitCycleMakesCycle | daemon/src/session_pool.rs:4071-4103 | tasks that wait in a circle make a cycle of recorded parents: the sessions they wait for, from the last task to the first |
| Deadlock.CycleHasRing | daemon/src/session_pool.rs:4071-4103 | every cycle of parents contains one that repeats no session |
| Deadlock.AllAsk | daemon/src/session_pool.rs:4191-4202 | for such a ring of any length there is a run in which each session's delete is inside its section and asks for its sidechain's lock |
| Deadlock.DeadlockIffCycle | daemon/src/session_pool.rs:4191-4202 | some run reaches tasks that wait in a circle if and only if the recorded parents have a cycle |
| Deadlock.OwnSidechainDeadlocks | daemon/src/session_pool.rs:4194-4202 | in particular if any session is its own parent |
| Deadlock.RanksPreventDeadlock | daemon/src/session_pool.rs:4191-4202 | ranks that grow from sidechain to parent exclude both |
| BindingCache.CoversIffMergedFrom | daemon/src/session_pool.rs:96-102 | a change covers exactly the keys whose bindings were merged from its tier: the global one, the own scene, and the own project if there is one |
| BindingCache.Cache.Lookup | daemon/src/session_pool.rs:4662-4664 | a hit is never stale and is of the key asked for |
| BindingCache.Cache.Insert | daemon/src/session_pool.rs:4703-4708 | the first build to arrive stays cached and is what everyone gets |
| BindingCache.Cache.Invalidate | daemon/src/session_pool.rs:4788-4796 | a named tier drops and marks stale exactly the cached bindings merged from it, and no tier named drops them all |
| BindingCache.Invariant | daemon/src/session_pool.rs:4656-4709 | in every run the cache holds exactly the bindings that are out and not stale, and stale means invalidated since the insertion |
| BindingCache.OneLiveBindingPerKey | daemon/src/session_pool.rs:4703-4708 | a binding that is not stale is the cached one under its key, so a key has one such binding |
| BindingCache.InvalidationReachesAll | daemon/src/session_pool.rs:4728-4796 | a handed-out binding is stale after the change of a tier if and only if it was before or the tier is one its key is merged from; after a change without a tier every binding is |
| BindingCache.LoadedAtTheLastReload | daemon/src/session_pool.rs:1754-1769 | the pool's own copy of the settings is as old as its last reload |
| BindingCache.BuildsIff | daemon/src/session_pool.rs:4662-4709 | a caller builds a binding exactly from a look-up that missed to its insertion |
| BindingCache.ReadsOnce | daemon/src/session_pool.rs:4668-4702 | and reads the settings for it once |
| BindingCache.BindingIsDated | daemon/src/session_pool.rs:4668-4709 | the dates of a binding are those of the step that read its settings and of the later step, by the same caller, that inserted it |
| BindingCache.LateNoticeMakesStale | daemon/src/session_pool.rs:4788-4796 | a change that is notified after the insertion makes the binding stale, even if the build missed it |
| BindingCache.MissesChangeIff | daemon/src/session_pool.rs:4669-4708 | a binding that is not stale misses a notified change exactly when the change came after its settings were loaded, for the pool's own pair by the last reload, and a notification before its insertion |
| BindingCache.MissedChangeIff | daemon/src/session_pool.rs:4669-4708 | once all changes of its files have been notified, a binding that is not stale is outdated exactly when one and its notification fell between that load and its insertion |
| BindingCache.AChangeDuringABuildIsMissed | daemon/src/session_pool.rs:4698-4708 | a run that ends with such a binding |
| BindingCache.AChangeBeforeABuildIsMissed | daemon/src/session_pool.rs:4668-4672 | a run that ends with such a binding of the pool's own pair, although the change came before the build and the copy has been reloaded |
| SessionMap.SessionPool.EvictLru | daemon/src/session_pool.rs:5563-5574 | removes and cancels one session with the least `last_active`, or nothing from an empty map |
| SessionMap.SessionPool.Insert | daemon/src/session_pool.rs:2306-2345 | makes room only for a new id in a full map, and cancels whoever had the id |
| SessionMap.SessionPool.RemoveAndCancel | daemon/src/session_pool.rs:4120-4125 | the entry leaves and its agent is cancelled, together |
| SessionMap.SessionPool.SweepIdle | daemon/src/session_pool.rs:5353-5360 | exactly the sessions idle for longer than the timeout leave, each cancelled |
| SessionMap.SessionPool.ShutdownAll | daemon/src/session_pool.rs:5229-5240 | every session leaves, each cancelled |
| SessionMap.Invariant | daemon/src/session_pool.rs:2306-2345 | in every run the map has at most `max(cap, 1)` sessions and every spawned agent is starting, live or cancelled |
| SessionMap.OutMeansCancelledForGood | daemon/src/session_pool.rs:2337-2345 | an agent that was live and no longer is has been cancelled, by whatever path it left |
| SessionMap.RebuildEvictsNobody | daemon/src/session_pool.rs:2308-2315 | a rebuild in place keeps every id and every other session, and cancels only the old agent |
| SessionMap.SurvivorsAreYounger | daemon/src/session_pool.rs:5563-5574 | an insertion evicts only at capacity, one session, active no later than any survivor |
| SessionMap.OnlyLeaversAreCancelled | daemon/src/session_pool.rs:5563-5574 | no removal path cancels an agent that stays live |
| SessionMap.RunsIff | daemon/src/session_pool.rs:2306-2345 | in every run an agent runs a session exactly since its insertion until the session is evicted, replaced, removed, swept or shut down |
| SessionMap.CancelledIff | daemon/src/session_pool.rs:4120-4125 | an agent has been cancelled exactly if some step stopped it or ended the session it ran |
| LongTurns.LastActiveIsLatest | daemon/src/session_pool.rs:2939-2939 | in every timed run `last_active` is the time of the latest look-up or insertion |
| LongTurns.RunningIff | daemon/src/session_pool.rs:2928-3020 | an agent runs a turn exactly from its beginning to its end, whatever becomes of the session meanwhile |
| LongTurns.SweepCutsShortIff | daemon/src/session_pool.rs:5353-5360 | the sweep cancels a running turn exactly when the session was last looked up longer than the timeout ago |
| LongTurns.NoSweepCutsShortIff | daemon/src/session_pool.rs:5353-5360 | over a whole run, none does if and only if every sweep finds each session with a turn looked up within the timeout |
| LongTurns.EvictionMayCutShortIff | daemon/src/session_pool.rs:2308-2315 | an insertion may evict a session in the middle of a turn exactly when the map is full and every other session has been looked up no earlier |
| LongTurns.EvictionCutsShortIff | daemon/src/session_pool.rs:5563-5574 | and cancels its turn exactly if it is the one chosen |
| LongTurns.ALongTurnIsSwept | daemon/src/session_pool.rs:5580-5590 | under every timeout, a run in which the sweep cancels a turn |
| LongTurns.ARunningSessionIsEvicted | daemon/src/session_pool.rs:5563-5574 | a run in which a new session ends a running turn |
| Deletion.Invariant | daemon/src/session_pool.rs:3985-4018 | in every run whoever is in a phase of the section is the one inside |
| Deletion.InsiderCanMove | daemon/src/session_pool.rs:3985-4018 | and the one inside has a next step that is enabled, up to the one that leaves |
| Deletion.DeletedIffNotRecreated | daemon/src/session_pool.rs:4191-4202 | a completed delete leaves the id out of the map exactly if no caller outside the section has inserted it and it stayed, and no transcript exactly if none has written the first line since it was erased |
| Deletion.ResumesNeverRecreate | daemon/src/session_pool.rs:3985-3992 | if every creation goes through the section, both are gone |
| Deletion.NoDeleteDuringAResume | daemon/src/session_pool.rs:3985-3992 | no delete takes out the entry or the transcript while a resume is inside |
| Deletion.LiveResumeCreatesNothing | daemon/src/session_pool.rs:5023-5103 | a resume that finds the session live, or an ended sidechain, neither inserts one nor writes a first line |
| Deletion.RefusedBeforeTheCheck | daemon/src/session_pool.rs:5073-5103 | an ended sidechain is refused before its history is looked at |
| Deletion.HistoryDecides | daemon/src/session_pool.rs:5105-5131 | a first line is written only by a caller that found no history, and a resume that found none and may not create inserts nothing |
| Deletion.WhatTheCheckMeans | daemon/src/session_pool.rs:5105-5131 | the look at the history, all ways: it leaves only a resume that found none and may not create, and a first line is needed exactly where none was found |
| Deletion.ADeletedSessionComesBack | daemon/src/session_pool.rs:2885-2892 | a run in which a turn's rebuild makes a deleted session live again, without a transcript |
| Deletion.ADroppedSessionIsResumed | daemon/src/session_pool.rs:5073-5135 | a run in which a stored session is dropped and then resumed, live and stored |
| FanOut.Client.TrySend | daemon/src/rpc.rs:201-208 | accepts exactly when the pump lives and fewer than 1024 items wait |
| FanOut.Client.Pump | daemon/src/rpc.rs:158-172 | hands over the queue in order, losing nothing, up to the first item the sink fails on |
| FanOut.Session.Subscribe | daemon/src/session_pool.rs:2682-2696 | joins and is answered with exactly the open questions, in one step, which is the machine's |
| FanOut.Session.BroadcastExcept | daemon/src/session_pool.rs:2763-2782 | every subscriber but the excepted one gets the frame at the end of its queue or loses its subscription |
| FanOut.Session.BroadcastEvent | daemon/src/session_pool.rs:2756-2782 | broadcasting in place takes every state of the machine that the session shows to the machine's next state |
| FanOut.Session.AnnouncePrompt | daemon/src/session_pool.rs:3150-3151 | broadcasting a remembered question is the machine's step |
| FanOut.Session.RememberPrompt | daemon/src/session_pool.rs:2650-2663 | the question is open; this is the machine's step |
| FanOut.Session.ForgetPrompt | daemon/src/session_pool.rs:2666-2671 | the question is closed, others stay open; this is the machine's step |
| FanOut.Session.ClearPendingPrompts | daemon/src/session_pool.rs:2823-2828 | no question is open; this is the machine's step |
| FanOut.Session.Unsubscribe | daemon/src/session_pool.rs:2706-2715 | only that connection leaves; this is the machine's step |
| FanOut.StreamHasNoHole | daemon/src/session_pool.rs:2763-2782 | while subscribed, the frames a connection's queue accepts are exactly the session's broadcasts in order, less those excepted for it |
| FanOut.NothingWhenUnsubscribed | daemon/src/session_pool.rs:2706-2729 | outside a subscription it accepts none of them |
| FanOut.WhySubscriptionsEnd | daemon/src/session_pool.rs:2706-2782 | a step ends a subscription exactly if it gives it up, replaces or removes the session's entry, or is a frame its queue cannot take, which leaves no trace |
| FanOut.SubscriptionLastsIff | daemon/src/session_pool.rs:2334-2345 | over any stretch of a run a subscription lasts exactly if there is no such step |
| FanOut.ARebuildDropsWatchers | daemon/src/session_pool.rs:2334-2345 | a run in which a subscriber with room, that never gave up, is not given a frame because the entry was rebuilt |
| FanOut.WhySubscriptionsBegin | daemon/src/session_pool.rs:2682-2696 | a connection begins to watch by subscribing, or by joining a turn of a session that is there, and in no other way |
| FanOut.PresentIff | daemon/src/session_pool.rs:2334-2345 | the session is there exactly since its creation until it is removed |
| FanOut.OpenIff | daemon/src/session_pool.rs:2650-2671 | a question is open exactly since it was remembered, with the session there, until it is forgotten, all are cleared, or the entry is replaced or removed |
| FanOut.AnnouncedOnce | daemon/src/session_pool.rs:3150-3151 | a question that is still to be announced was remembered, and has not been announced |
| FanOut.QueueStep | daemon/src/rpc.rs:131-208 | a queue accepts at its end what is addressed to it while there is room, hands over one item at a time from the front, and loses nothing |
| FanOut.WhoIsReached | daemon/src/session_pool.rs:2756-2782 | a broadcast reaches every subscriber with room but the one it excepts, and a question every one |
| FanOut.Session.constructor | daemon/src/session_pool.rs:2334-2335 | a new entry has no subscribers and no open questions, as after the machine's creation, whatever there was before |
| FanOut.HandedIsAPrefix | daemon/src/rpc.rs:131-139 | what reached the sink is a prefix of what was accepted |
| FanOut.EveryOpenQuestionArrives | daemon/src/session_pool.rs:2673-2703 | every announced question still open has been shown to each subscriber, in the answer to its subscription or in the stream since |
| FanOut.LacksIff | daemon/src/session_pool.rs:2673-2703 | while subscribed, a connection lacks an open announced question exactly when it lacked it at the start, the announcement was over by then, and it has not subscribed since |
| FanOut.JoinerMissesIff | daemon/src/session_pool.rs:3004-3013 | so a client that joins by running a turn misses, of what its queue accepted and its subscriptions were answered, exactly the open questions announced before it joined that it had not been shown, until it subscribes |
| FanOut.AJoinerCanMissAQuestion | daemon/src/session_pool.rs:2976-2979 | a run in which a subscriber has not been shown an open, announced question |
| Transcript.TruncateAtCharBoundary | crates/core/src/text.rs:31-40 | the longest prefix within the budget that ends between two characters |
| Utf8.TruncatedKeepsWholeCharacters | crates/core/src/text.rs:31-40 | of a text in UTF-8 the longest run of whole characters that fits is left |
| Transcript.TokensAppend | crates/compaction/src/grouping.rs:93-108 | the estimate of a concatenation is the sum of the estimates |
| Grouping.GroupByApiRound | crates/compaction/src/grouping.rs:32-83 | the loop's rounds are the grouping, each with its offset and cost |
| Grouping.RoundsLieWhereTheySay | crates/compaction/src/grouping.rs:32-83 | each of those rounds is the slice of the transcript at its offset, with the estimate of that slice, and the slices follow one another from the first message to the last |
| Grouping.GroupWellCut | crates/compaction/src/grouping.rs:32-74 | rounds are not empty, are cut exactly where a round starts, and together are the transcript |
| Grouping.RegroupWellCut | crates/compaction/src/grouping.rs:32-74 | it is the only such grouping: regrouping any well-cut rounds gives them back |
| Grouping.RegroupNewest | crates/compaction/src/grouping.rs:32-74 | the newest rounds of a transcript regroup to themselves |
| Grouping.UserMessageStartsRoundIffTextFirst | crates/compaction/src/grouping.rs:42-67 | a later user message opens a round of the grouping exactly when its first block is text |
| Grouping.AnswerStartsRoundIffResultBefore | crates/compaction/src/grouping.rs:42-67 | any other message opens one exactly when it is the model's answer to a user message whose first block is a tool result |
| Grouping.BeginsRoundIffCut | crates/compaction/src/grouping.rs:42-67 | rounds begin at a user text or at the model's answer to tool results, and nowhere else but at the start |
| Compact.SnipKeepIsBest | crates/compaction/src/compact.rs:375-390 | snip keeps the one longest suffix of rounds within budget and cap, or the newest round alone |
| Compact.Snip | crates/compaction/src/compact.rs:361-405 | the loop computes that suffix, and the figures it reports are the dropped rounds, messages and tokens |
| Compact.SnippedCost | crates/compaction/src/compact.rs:390-403 | the accumulated cost is the cost of the messages kept |
| Compact.SnippedFits | crates/compaction/src/compact.rs:375-390 | snip ends within budget exactly when the newest round alone fits |
| Compact.SnipRegroups | crates/compaction/src/compact.rs:391-394 | regrouping the output of snip gives exactly the kept rounds |
| Compact.SnipIdempotent | crates/compaction/src/compact.rs:361-405 | a second snip with the same arguments changes nothing |
| Compact.ToolSeenIsLatestCall | crates/compaction/src/compact.rs:421-429 | a result is attributed to the last call in scan order |
| Compact.MicroCompact | crates/compaction/src/compact.rs:408-460 | old rounds have the bodies of compactable results cleared and nothing else changed, kept rounds are untouched |
| Compact.CollapseContext | crates/compaction/src/compact.rs:464-522 | old rounds become the boundary and the joined digest, kept rounds follow untouched |
| Compact.AgedKeepsNewestRound | crates/compaction/src/compact.rs:454-457 | micro-compaction costs at least the newest round |
| Compact.CollapsedKeepsNewestRound | crates/compaction/src/compact.rs:517-520 | so does collapsing |
| Compact.Compact | crates/compaction/src/compact.rs:527-592 | over budget, the newest round decides between a snip within budget with an exact projection and a collapse still over it; micro-compaction is reported exactly when no round is kept, the newest does not fit and clearing old results suffices |
| Compact.MicroCompactIsReported | crates/compaction/src/compact.rs:557-567 | with no round kept, a transcript, an estimator and a budget for which the answer is micro-compaction |
| Compact.Reactive | crates/compaction/src/compact.rs:206-235 | adopts the rewrite exactly when it triggers and is cheaper, and never drops a message |
| CompactedView.SnipKeepsTheMostThatFits | crates/compaction/src/compact.rs:361-405 | what snip leaves is the newest rounds: at least one, more only within budget and as many as asked for, and any more of these would be over budget |
| CompactedView.ToolSeenIff | crates/compaction/src/compact.rs:416-432 | the tool that a result is attributed to is one of a given set exactly if the last call, in reading order, up to and including its message is of that set |
| CompactedView.AgedBlock | crates/compaction/src/compact.rs:408-460 | a block is emptied, keeping its id, exactly if it is a tool result of an old round and that call is of one of the eight tools; every other block stays as it was |
| CompactedView.CollapsedReads | crates/compaction/src/compact.rs:464-522 | a collapsed transcript is word for word the boundary and the labelled digest of the old messages, then the kept rounds |
| CompactedView.PartsAppend | crates/compaction/src/compact.rs:482-502 | the parts of one transcript after another are those of the first and then those of the second |
| CompactedView.ContentPartsSnoc | crates/compaction/src/compact.rs:485-499 | a further block of a message adds its part at the end |
| CompactedView.WhatABlockAdds | crates/compaction/src/compact.rs:485-499 | a text of up to 200 bytes is its own part, a longer one is cut at the last character boundary within them and gets three dots, a call gives its tool's name, anything else nothing |
| CompactedView.JoinAppend | crates/compaction/src/compact.rs:502-502 | the digest of parts followed by parts is the two digests in that order with the separator between |
| CompactedView.JoinOne | crates/compaction/src/compact.rs:502-502 | one part is its own digest, and no parts give the empty text |
| CompactedView.ADigest | crates/compaction/src/compact.rs:482-502 | the digest of a question, an answer with a call, and its result, in full |
| Pairing.SnipKeepsPairs | crates/compaction/src/compact.rs:391-394 | every surviving result still has its call before it, every surviving call keeps its result |
| Pairing.MicroCompactKeepsPairs | crates/compaction/src/compact.rs:433-449 | the same after micro-compaction |
| Pairing.CollapseKeepsPairs | crates/compaction/src/compact.rs:505-520 | the same after collapsing |
| Pairing.SuffixesKeepPairsIff | crates/compaction/src/grouping.rs:42-67 | for no arguments does snip orphan a result, and for none does collapsing, if and only if no user text and no further answer of the model stands between a result and its call |
| Pairing.SnipReachesEveryCut | crates/compaction/src/compact.rs:375-394 | each round start is where snip cuts under some budget and number of rounds |
| Pairing.TextBeforeResultIsOrphaned | crates/compaction/src/grouping.rs:42-67 | under some budget snip keeps a message with text before its result and drops the call |
| ResultBudget.EnforceToolResultBudget | crates/compaction/src/compact.rs:1071-1146 | rewrites result bodies in place as specified, changes nothing else, and counts its rewrites |
| ResultBudget.RewritesAreCounted | crates/compaction/src/compact.rs:1071-1146 | the count it returns is that of the bodies over the limit and then of those that clearing changes |
| ResultBudget.TruncateOversized | crates/compaction/src/compact.rs:1083-1104 | pass one truncates exactly the oversized bodies and sums what is left |
| ResultBudget.WhatTruncationWrites | crates/compaction/src/compact.rs:1087-1099 | a body over the limit becomes the note with its own size and then the limit, and at most its first 1000 bytes; any other stays |
| ResultBudget.DecimalIsTheNumber | crates/compaction/src/compact.rs:1092-1097 | the figures in the note are digits, without a zero in front, whose value is the number |
| ResultBudget.BodiesUpdate | crates/compaction/src/compact.rs:1127-1141 | writing at the p-th position replaces the p-th body and no other |
| ResultBudget.EndsWithinBudgetOrEmpty | crates/compaction/src/compact.rs:1116-1141 | the total ends within the budget or every result is cleared |
| ResultBudget.ClearsShortestPrefix | crates/compaction/src/compact.rs:1127-1141 | exactly the shortest chronological prefix that suffices is cleared, or all when none does |
| ResultBudget.SecondRunIff | crates/compaction/src/compact.rs:1071-1146 | a second run rewrites nothing exactly when the limit has room for the cleared text, if the first run clears any, and for the note of each oversized body it does not clear |
| ResultBudget.SecondRunChangesNothing | crates/compaction/src/compact.rs:1071-1146 | with room for the truncation note a second run rewrites nothing |
| ResultBudget.ANoteCanBeOverTheLimit | crates/compaction/src/compact.rs:1087-1099 | a limit of 500 under which one body of 2000 bytes is rewritten again |
| CachedCompact.ClearStaleToolResults | crates/compaction/src/cached.rs:161-199 | blanks the results ranked beyond the newest `keep_recent` in place and reports their ids in scan order |
| CachedCompact.KeepsExactlyTheNewest | crates/compaction/src/cached.rs:168-196 | a block is blanked exactly if it is a result with at least `keep_recent` newer ones, and nothing else changes |
| CachedCompact.RankOrder | crates/compaction/src/cached.rs:168-188 | results rank by message from the newest back, and within one message in block order |
| CachedCompact.BlankedAreTheOldest | crates/compaction/src/cached.rs:181-196 | a blanked result has an empty id, the cleared text and no error; kept ones are unchanged, and every kept one ranks before every blanked one |
| CachedCompact.SecondPassChangesNothing | crates/compaction/src/cached.rs:161-199 | a second pass leaves the messages as they are |
| CachedCompact.SecondPassReportsNothing | crates/compaction/src/cached.rs:181-188 | and reports no ids |
| CachedCompact.BuildCacheEdits | crates/compaction/src/cached.rs:112-133 | the independent scan gives exactly the ids the clearing pass reports, each once, in order of first occurrence |
| CachedCompact.EditIdsAreDeduplicated | crates/compaction/src/cached.rs:121-127 | its counter and containment test come to deduplicating that report |
| CachedCompact.CachedMicroCompact.RecordPass | crates/compaction/src/cached.rs:80-84 | the ids become pending as in the machine's step, and a further pass is due exactly when the interval is over |
| CachedCompact.CachedMicroCompact.Run | crates/compaction/src/cached.rs:69-76 | disabled it touches nothing; enabled it is the machine's pass, and what it cleared is pending |
| CachedCompact.CachedMicroCompact.ConsumePendingEdits | crates/compaction/src/cached.rs:92-94 | hands the pending ids out once, as the machine's request does |
| CachedCompact.TwoPassesLoseTheFirst | crates/compaction/src/cached.rs:80-84 | after a second pass nothing is pending, whatever ids the first reported, which are returned |
| CachedCompact.HandedOutIff | crates/compaction/src/cached.rs:69-94 | over every run of passes and requests, an id that a pass reports is handed out exactly when a request comes after it and before the next pass |
| CachedCompact.AnIdCanBeLost | crates/compaction/src/cached.rs:80-84 | a run whose only reported id goes to no request |
| WatchRegistry.NearestExisting | daemon/src/watch_hub.rs:151-162 | the nearest existing ancestor, or the path itself when none exists |
| WatchRegistry.WatchHub.Subscribe | daemon/src/watch_hub.rs:146-195 | one more token on the canonical path; the first, of a path that is on disk, registers it with the watcher |
| WatchRegistry.WatchHub.Release | daemon/src/watch_hub.rs:213-234 | one token less, and the last one takes the path out of every table |
| WatchRegistry.WatchHub.KeysForEventPath | daemon/src/watch_hub.rs:241-251 | the bag of the keys of exactly the live tokens on the path or an ancestor of it |
| WatchRegistry.RegistryIsTheBag | daemon/src/watch_hub.rs:146-234 | after any subscribes and drops, presence, count and keys of each path are those of its live tokens |
| WatchRegistry.RegisteredIff | daemon/src/watch_hub.rs:146-234 | a path is registered with the watcher exactly if it has live tokens and was on disk at the subscription that began their current unbroken run |
| WatchRegistry.AllOnDiskAreWatched | daemon/src/watch_hub.rs:170-185 | if every subscribed path is on disk, the registered paths are those of the live tokens |
| WatchRegistry.AllDroppedLeavesNothing | daemon/src/watch_hub.rs:220-233 | with no token left the registry is empty |
| WatchInterleaved.CountsInvariant | daemon/src/watch_hub.rs:170-234 | however the lock-held steps of subscribing and releasing interleave, the count of a path is the number of its tokens |
| WatchInterleaved.KeysAreRightIff | daemon/src/watch_hub.rs:213-234 | the key lists are those of the live tokens throughout a run exactly when no release drops a list that a subscription has added to since the path was uncounted |
| WatchInterleaved.QuietAndRightIsTheBag | daemon/src/watch_hub.rs:213-234 | with no operation under way, right lists make the registry the bag of the live tokens, with nothing watched in vain |
| WatchInterleaved.AKeyCanBeLost | daemon/src/watch_hub.rs:220-233 | a run that ends with a live token whose key no table holds |
| WatchInterleaved.WatchersInvariant | daemon/src/watch_hub.rs:184-233 | at most one subscription at a time is about to have a path watched, and a path that is watched without tokens is about to be unwatched |
| WatchInterleaved.PathsAreWatchedIff | daemon/src/watch_hub.rs:184-233 | throughout a run every path with tokens is watched or about to be, exactly when each could be watched and no release unwatches a path that has tokens again and no watch to come |
| WatchInterleaved.QuietAndCoveredIsWatched | daemon/src/watch_hub.rs:184-233 | with no operation under way, that means the watched paths are exactly those of the live tokens |
| WatchInterleaved.AWatchCanBeUndone | daemon/src/watch_hub.rs:184-233 | a run, with every path watchable, that ends with a live, listed token on an unwatched path |
| Debounce.Debouncer.ScheduleNotify | daemon/src/watch_hub.rs:258-268 | bumps the key's generation and leaves a checker for it a window ahead, as the machine's step does |
| Debounce.Debouncer.Wake | daemon/src/watch_hub.rs:269-273 | notifies exactly if no newer event of the key has come, as the machine's step does |
| Debounce.Invariant | daemon/src/watch_hub.rs:253-275 | in every timed run, notices and checkers belong to events, in order, and the newest event is covered |
| Debounce.NoticesAreSpaced | daemon/src/watch_hub.rs:197-201 | two notices of one key are at least the window apart |
| Debounce.BurstsCollapse | daemon/src/watch_hub.rs:253-257 | an event followed by another of its key within the window is never notified on its own |
| Debounce.EveryEventIsNoticed | daemon/src/watch_hub.rs:253-275 | once a key's checkers have run, each of its events has been followed by a notice |
| Debounce.ALoneEventIsNoticed | daemon/src/watch_hub.rs:197-275 | a run in which an event is notified 300 milliseconds after it came |
| FrameStream.FrameReader.NextFrame | daemon/src/server.rs:128-164 | the first frame of the whole remaining stream, and the stream after it, whatever the reads were |
| FrameStream.FrameReader.ReadAll | daemon/src/server.rs:352-352 | the frames of the whole stream, in terms of its bytes alone |
| FrameStream.ReadTwice | daemon/src/server.rs:128-164 | two cuts of the same bytes are read as the same frames |
| FrameStream.FramesAreTheSplit | daemon/src/server.rs:119-164 | the frames are the newline split up to the end, a frame over the limit, or an unfinished frame when the stream fails |
| FrameStream.SplitIsUnique | daemon/src/server.rs:119-164 | and no other sequence of frames is such a split |
| FrameStream.FrameLimit | daemon/src/server.rs:119-164 | a line of up to 16 MiB is a frame; with one byte more, neither it nor anything after it is read |
| FrameStream.LineSink.SendJson | daemon/src/server.rs:172-182 | appends the text and a newline, so accepted texts pile up one per line, or a part of the text when the peer stops taking bytes; a failed flush reports failure after the whole line |
| FrameStream.FramesOfWritten | daemon/src/server.rs:172-182 | reading back what was written returns the texts, and a line cut off last returns as a shorter frame |
| FrameStream.WriteThenRead | daemon/src/server.rs:128-182 | newline-free texts within the limit survive writing, any cut, and reading |
| Semaphore.Limiter.Enter | bridges/atta-dsh-bridge/src/limit.js:26-30 | starts below the limit, parks at the end of the queue otherwise, as the machine's step does |
| Semaphore.Limiter.Resume | bridges/atta-dsh-bridge/src/limit.js:28-30 | the woken task counts itself active without another check |
| Semaphore.Limiter.Finish | bridges/atta-dsh-bridge/src/limit.js:33-37 | gives up a place and wakes the first of the queue, as the machine's step does |
| Semaphore.Invariant | bridges/atta-dsh-bridge/src/limit.js:26-38 | in every run a queued task implies `limit` tasks active or woken, and waiters are woken once each in order of arrival |
| Semaphore.QueuedMeansProgress | bridges/atta-dsh-bridge/src/limit.js:26-38 | with a limit of at least one, a queued task always has somebody who can move |
| Semaphore.WokenInItsTurn | bridges/atta-dsh-bridge/src/limit.js:33-37 | a task with p others before it is woken by the time p + 1 tasks have finished |
| Semaphore.EveryTaskIsSomewhere | bridges/atta-dsh-bridge/src/limit.js:26-38 | in every run the tasks in the queue, woken, at work and finished together are those that have come |
| Semaphore.WithinLimitIffNobodyBarges | bridges/atta-dsh-bridge/src/limit.js:17-38 | the limit bounds active and woken tasks together over a run exactly when no newcomer starts while the places are spoken for |
| Semaphore.ActiveWithinLimitIff | bridges/atta-dsh-bridge/src/limit.js:17-38 | at most `limit` tasks run at once over a run exactly when every woken task finds a free place as it resumes |
| Semaphore.WithinLimitWhenResumedFirst | bridges/atta-dsh-bridge/src/limit.js:26-38 | it does when woken tasks resume before newcomers enter |
| Semaphore.TwoAtOnceUnderLimitOne | bridges/atta-dsh-bridge/src/limit.js:26-38 | a run with limit one and two active tasks |
| Semaphore.LimitIsTheFloor | bridges/atta-dsh-bridge/src/limit.js:12-15 | a positive number counts rounded down, and anything else leaves the limit at eight |
| Semaphore.LimitIsZeroIff | bridges/atta-dsh-bridge/src/limit.js:12-15 | the limit is zero exactly for positive fractions below one |
| Semaphore.LimitZeroStartsNothing | bridges/atta-dsh-bridge/src/limit.js:26-29 | under limit zero every task waits for ever |
| Semaphore.HalfStartsNothing | bridges/atta-dsh-bridge/src/limit.js:12-29 | with the setting 0.5 no run ever starts a task |
| Semaphore.SomethingStartsIff | bridges/atta-dsh-bridge/src/limit.js:12-38 | a setting lets a task start exactly when it is not such a fraction |
| FormCodec.UrlDecode | crates/auth/src/callback.rs:142-173 | ends on every input with the decoding, no longer than the input, whose meaning the next rows give for every text |
| FormCodec.DecodedIsTheValues | crates/auth/src/callback.rs:142-173 | a text of escapes, pluses and other bytes, a percent sign without two digits after it among them, decodes to their values in order |
| FormCodec.EveryTextIsPieces | crates/auth/src/callback.rs:142-173 | and every text is one of these |
| FormCodec.DigitsAreTheTables | crates/auth/src/callback.rs:153-157 | the hex digits are the figures and the letters a to f in either case |
| FormCodec.EscapesOfEitherCase | crates/auth/src/callback.rs:150-165 | every byte string written in escapes is recovered, with each digit in either case |
| FormCodec.DecodeUndoesEncode | crates/auth/src/callback.rs:142-173 | decoding undoes the standard's encoding of every byte string |
| FormCodec.PlainTextIsKept | crates/auth/src/callback.rs:166-169 | a text without plus and percent signs is decoded to itself |
| FormCodec.SplitThenJoin | crates/auth/src/callback.rs:131-131 | the pieces of any query, joined again, are the query, and none has a separator |
| FormCodec.JoinThenSplit | crates/auth/src/callback.rs:131-131 | no other list of pieces is |
| FormCodec.WhatAPieceMeans | crates/auth/src/callback.rs:132-135 | the first equals sign of a piece ends the key, further ones belong to the value, and without one the value is empty |
| FormCodec.WhatAQueryMeans | crates/auth/src/callback.rs:126-136 | a query has one pair for each piece, empty ones included, and the empty query none |
| FormCodec.AQuery | crates/auth/src/callback.rs:126-173 | a query with a lower-case escape, a plus and a key without value, decoded in full |
| FormCodec.ParseQuery | crates/auth/src/callback.rs:126-138 | the map of the query's pairs, put in one after the other |
| FormCodec.LastDuplicateWins | crates/auth/src/callback.rs:131-136 | the map has exactly the keys of the pairs, each with the value of its last pair |
| FormCodec.QueryPairsOfSerialized | crates/auth/src/callback.rs:126-138 | every list of pairs survives serializing and splitting, in order and with duplicates |
| FormCodec.SerializeThenParse | crates/auth/src/callback.rs:126-173 | parsing a serialized list of pairs gives the map of those pairs |
| Pkce.Base64Url | crates/auth/src/pkce.rs:82-107 | four characters for three bytes rounded up, of the alphabet only, without padding |
| Pkce.EncodeGroup | crates/auth/src/pkce.rs:86-104 | one chunk of one to three bytes, from which the decoder gets the chunk back |
| Pkce.AlphabetRuns | crates/auth/src/pkce.rs:84-84 | the table is the alphabet of section 5 of RFC 4648 |
| Pkce.DecodeUndoesEncode | crates/auth/src/pkce.rs:82-107 | a decoder recovers every byte sequence, so nothing of the hash is lost |
| Pkce.EncodeUndoesDecode | crates/auth/src/pkce.rs:82-107 | and accepts no text that is not the encoding of what it returns |
| Pkce.TestVectors | crates/auth/src/pkce.rs:82-107 | the encodings of "f", "fo", "foo" and "foob" given in section 10 of RFC 4648 |
| Pkce.NextRand | crates/auth/src/pkce.rs:74-80 | the number returned determines the state it was drawn from, which is the new state |
| Pkce.MixedIsABijection | crates/auth/src/pkce.rs:76-79 | the mixing is a bijection of the 64-bit words, with its inverse given |
| Pkce.OneMoreCall | crates/auth/src/pkce.rs:75-75 | one more call advances the closed form of the state by one |
| Pkce.FullPeriod | crates/auth/src/pkce.rs:74-80 | from every seed each 64-bit number is the output of exactly one call in 2^64 |
| Pkce.StateAtIsStateAfter | crates/auth/src/pkce.rs:51-75 | the states a verifier draws from are those of the closed form, in order |
| Pkce.FirstOfZero | crates/auth/src/pkce.rs:74-80 | the first two numbers from seed 0 are the generator's published ones |
| Pkce.GenerateVerifier | crates/auth/src/pkce.rs:51-60 | the length asked for, of unreserved characters only, from any seed; each is the one its call's number picks from the table by its remainder |

## Left out

- Integer widths: sizes, token counts, reference counts and generations are unbounded; only `next_rand` wraps.
- Cancellation of a request in the middle: a caller of `run_turn`, `create` or `with_session_lock` that is dropped between two steps.
- The steer acknowledgement and the one-second queue timeout are allowed wake-ups; nothing is proved about their timing.
- Whether a freed receiver is ever taken by a particular queued caller: fairness of the scheduler and of the locks.
- Transcripts beyond their first line: what a stopping agent still writes after a delete only makes the history check of `Deletion` arbitrary.
- FanOut.ClearPendingPrompts: which turn clears is left open there; `OpenQuestions` has the turns, and takes the clearing and the removal by a turn whose engine is gone as one step.
- `create` falling back to a fresh id when it fails, and which bindings are stale: any entry may be found stale at any time.
- Debounce.Debouncer.Wake: loading the generation and sending the notice are one step, so times are those of the check.
- The capacity of the broadcast channel behind `WatchHub::changes`, and receivers that lag on it.
- TurnSlot.SessionEntry.SetCurrentTurn: the subscription made in the same locked section is the step `Join` of `FanOut`.
- WatchRegistry.WatchHub.Release: one step here, as is a subscription; their lock-held steps are `WatchInterleaved`.
- Whether the operating system's watcher reports what it was told to watch.
- FanOut.Client.Pump: waiting for room in `send_json` and its acknowledgement are a step that is enabled when there is room.
- FrameStream.FrameReader.NextFrame: returns bytes; the lossy conversion of a frame to text is not modelled.
- FormCodec.ParseQuery: the lossy conversion to text is an arbitrary function of the decoded bytes.
- Loading settings and building a binding: one read at one moment, but for the copy that the pool keeps of its own pair.
- BindingCache.MissedChangeIff: a change made after the read, before anybody watches the file, is never notified; `Settled` excludes it.
- BindingCache.Cache.Insert: the last good model router kept beside a binding is not modelled.
- The tokenizer: any natural number per message, as the additivity contract of `estimate_tokens` allows.
- Compact.Reactive: the velocity prediction is a parameter, since its module is not part of this model.
- `should_compact`, `OnlyAtThreshold`, the context warning, the aging passes by time, recovery messages and the LLM summary.
- Tool-call pairing after the cached pass, which blanks the ids on purpose.
- The quality and the seeding of the verifier's randomness, and SHA-256.
- Sockets, WebSocket upgrade, method dispatch, settings merging, discovery, telemetry and reports.
