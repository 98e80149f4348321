# DSTX core in Dafny

DSTX is a daemon that reads DualShock 4, DualSense and Switch Pro controllers and presents them as
virtual pads. Its C core shares one memory segment between a main thread, a worker thread for each
controller, a settings thread and client processes. This project models that core and proves what
it keeps.

| modules | what they model |
|---|---|
| `Records` | the persistent settings of a slot and their snapshot in a profile |
| `SlotTable`, `Lifecycle`, `LifecycleInvariant`, `LifecycleTheorems` | handing out, watching and giving back the four slots: first the table and its critical sections in place, then all threads as interleaved steps around `proc_mutex`, with the place of main in its loop and the clock |
| `LifecycleWatchdog`, `LifecycleRace` | whom the watchdog stops, and the slots it loses |
| `EffectColours`, `LifecycleEffects`, `LifecycleDirties` | what LED effects show, and when workers change the stored configuration |
| `LifecycleSchedules` | building runs step by step |
| `Mailbox`, `MailboxTimeouts` | the request and response protocol between a client and the settings thread, store by store, without and with callers that give up |
| `ProfileCodec`, `ProfileService`, `WriteBack` | profiles as trees on disk, the settings thread in place, its write-back cache and its automatic saves |
| `Debounce`, `Keymap`, `Curves` | from raw buttons and sticks to logical ones |
| `DeltaEmission` | incremental events for the Switch Pro against full emission |
| `HidDescriptor`, `HidReport` | the report descriptor, the report built for it, and a host that decodes one by the other |
| `LedRetry`, `ForceFeedback` | output: the retry countdown and the ownership of uploaded effects |
| `BatchCommands` | several slot commands on one command line |

Code that changes things step by step is a class or a method with loops, proved equal to a function;
the lemmas are about those functions. Runs are sequences of steps in any order, so a statement
about a run holds for every schedule. System calls, clocks and the kernel are parameters of the steps:
every outcome is possible.

Some things the code does are not what one would expect, and are stated as they are:

- The watchdog updates the slot bitmap without the mutex. A worker that gives back, between its read
  and its write, a slot read as busy loses that slot (`LifecycleRace.WatchdogRaceLosesASlot`). With the
  watchdog at slot k, the loss of slot j is for good if and only if j comes before k, or the watchdog's
  test does not fire for the worker's last heartbeat, because it never beat or because it beat less
  than five seconds before the pass: then the check for lost connections joins the worker before the
  watchdog looks again (`LifecycleRace.LossIsPermanentExactly`). Apart from that window and a failed
  allocation of the thread arguments nothing is ever lost (`LifecycleTheorems.NoSlotIsLost`).
- The watchdog reads the clock once for a whole pass and subtracts without a sign. A healthy worker is
  stopped if and only if it has beaten since (`LifecycleWatchdog.HealthyIsStoppedExactly`); after a long
  join that is every running worker of a later slot (`LifecycleWatchdog.LateBeatIsFatal`).
- The settings of a slot are also written by the workers: LED effects store their colours and layout
  requests rewrite the keymap. So a profile can become dirty although no client wrote anything and no
  layout was asked for. Among runs in which no LED request is started while main works on its slot, that
  is possible if and only if some stored configuration is static in another colour than its base
  colour, shows a rainbow, wave or battery effect, dims a base colour that is not black at the stored
  brightness, or starts black with another colour stored. Among all runs, also if some
  configuration is static in a colour other than black: a worker reads the request of a slot, that slot's
  own worker leaves, main registers the next device there, and the other worker reads black from the
  zeroed slot and stores it after the restore (`LifecycleDirties.DirtiesExactly`,
  `LifecycleDirties.HiddenStartDirties`).
- The watchdog's branch that recreates a worker is dead (`LifecycleTheorems.WatchdogNeverRecreates`).
- Deleting `Default` while it is active leaves a clean profile without a file
  (`WriteBack.DeleteExactly`).
- An automatic save can come almost one millisecond early (`WriteBack.WriteCanBeEarly`), exactly when
  the clock's microseconds are below those of the last change and less than a millisecond is missing
  (`WriteBack.WritesEarlyExactly`).
- After a call that timed out, a later call may return the reply to the earlier one
  (`Mailbox.TimeoutMixesReplies`); `MailboxTimeouts.OwnReplyExactly` says when.
- The dead zone is documented as rescaling the remaining range (docs/dstx.txt:108-109); its factor
  cancels, so it only cuts
  (`Curves.ApplyDeadzone`).
- A rumble change within 50 ms of the previous one is dropped but cached as sent, so repeating it does
  not help (`ForceFeedback.CommandTakesEffectExactly`, `ForceFeedback.DroppedStaysDropped`).
- A batch of Switch Pro events within 4 ms of the previous forward is not forwarded, nor remembered
  as unsent (`DeltaEmission.ReadIsCurrentExactly`).
- The presets are documented the wrong way round (README.md:546-555): Precision and Sniper, described as
  slow near the centre, are the quickest, Aggressive and Rapid the slowest, and Racing is linear
  (`Curves.PresetOrder`).
- A last command `--wait` on the command line is taken for the option (`BatchCommands.WaitIsTaken`).
- The comment in `keys.h` says the keymap is applied to raw buttons; the translators pass debounced ones.

## Model

| member | source | states |
|---|---|---|
| Records.SaveRestore | dstx/src/utils.c:349-420 | restoring a profile entry into a controller and saving it again gives the entry back |
| Records.RestoreSave | dstx/src/utils.c:349-420 | the other direction is exact if and only if the requested effect fits a byte, the static flag agrees with it and a request is pending |
| Records.SavedByName | dstx/src/utils.c:349-420 | every setting is kept under its own name; only the requested effect is cut to a byte |
| SlotTable.ScanMeaning | dstx/src/daemon.c:137-150 | the eviction loop is cut short exactly by an accessible connected slot with the path; it disconnects and frees exactly the ghosts before that one, and otherwise leaves no connected slot with the path |
| SlotTable.RegisteredKeepsConfig | dstx/src/daemon.c:171-194 | zeroing, refilling and restoring a slot keeps its persistent configuration |
| SlotTable.SharedSlots.constructor | dstx/src/daemon.c:1048-1051 | the bitmap starts with all four slots free |
| SlotTable.SharedSlots.FindFreeSlot | dstx/src/daemon.c:74-81 | the lowest free slot, or -1 exactly when none is free |
| SlotTable.SharedSlots.MarkSlotBusy | dstx/src/daemon.c:83-87 | clears one bit of the set of free slots and no other |
| SlotTable.SharedSlots.MarkSlotFree | dstx/src/daemon.c:89-93 | sets one bit of the set of free slots and no other |
| SlotTable.SharedSlots.EvictGhosts | dstx/src/daemon.c:137-150 | the loop in place computes the specified scan |
| SlotTable.SharedSlots.Register | dstx/src/daemon.c:171-237 | the critical section in place: one slot filled and marked busy, every slot's configuration kept |
| SlotTable.SharedSlots.WorkerExit | dstx/src/daemon.c:1019-1025 | the exit section in place: one slot disconnected, its path cleared, its bit set |
| LifecycleInvariant.ScanKeepsInv | dstx/src/daemon.c:135-169 | ghost eviction and the choice of a slot keep the protocol invariant |
| LifecycleInvariant.RegisterKeepsInv | dstx/src/daemon.c:135-264 | every step of a registration keeps the protocol invariant |
| LifecycleInvariant.MonitorKeepsInv | dstx/src/daemon.c:1089-1130 | every step of the watchdog and of the lost-connection check keeps it, with the unlocked bitmap update as two steps |
| LifecycleInvariant.WorkKeepsInv | dstx/src/daemon.c:333-1029 | every step of a worker outside its loop body keeps it, on both ways out |
| LifecycleInvariant.BodyKeepsInv | dstx/src/daemon.c:696-818 | so does every step of the loop body: layout requests, LED requests of all slots, LED frames, store by store |
| LifecycleInvariant.RunKeepsInv | dstx/src/daemon.c:1031-1187 | so does every run of main, workers, settings thread and clients |
| LifecycleInvariant.InitInv | dstx/src/daemon.c:1048-1069 | the daemon starts in it |
| LifecycleTheorems.OneWorkerPerSlot | dstx/src/daemon.c:152-169 | in every reachable state each slot has at most one unfinished worker |
| LifecycleTheorems.ExitStaysInItsSlot | dstx/src/daemon.c:1019-1025 | a worker's exit never frees or disconnects a slot that main has handed on, nor touches another slot, bit or worker |
| LifecycleTheorems.MutualExclusion | dstx/src/daemon.c:135-264 | in every step only the holder of the mutex gives it back, only a free mutex is taken, and the one who takes it holds it |
| LifecycleTheorems.ConnectedIsBusy | dstx/src/daemon.c:188-238 | outside main's section a connected slot is marked busy |
| LifecycleTheorems.NoSlotIsLost | dstx/src/daemon.c:237-253 | over every run in which allocation succeeds and no worker gives back, in the watchdog's window, a slot read as busy, a busy slot has an unfinished worker or is being registered |
| LifecycleTheorems.ExitInWindowLosesSlot | dstx/src/daemon.c:1102 | an exit inside the window loses the slot if and only if the watchdog had read it as busy |
| LifecycleTheorems.WatchdogNeverRecreates | dstx/src/daemon.c:1104-1112 | in every reachable state the recreate branch is not taken |
| LifecycleTheorems.JoinsAreSafe | dstx/src/daemon.c:154-169 | main never joins while it holds the mutex, and the awaited worker has been stopped or disconnected |
| LifecycleTheorems.JoinRankDecreases | dstx/src/daemon.c:661-1004 | no step of another thread puts the awaited worker further from its end, each of its own brings it nearer |
| LifecycleTheorems.JoinEnds | dstx/src/daemon.c:154-169 | in every interleaving the awaited worker takes at most 573 more steps; taking and giving back the mutex are steps, and every critical section of its loop body counts, the 256 that one buffer of events can ask for included |
| LifecycleTheorems.JoinNeverDeadlocks | dstx/src/daemon.c:154-169 | while main joins, the join can return, the worker can step, or the holder of the mutex can release it |
| LifecycleTheorems.RoundEnds | dstx/src/daemon.c:1087-1130 | a round of main's loop begins with one reading of the clock at the first slot, and every other step brings it nearer to its end, at most 36 steps away |
| LifecycleTheorems.RoundGoesOn | dstx/src/daemon.c:1087-1130 | main can always go on with a round unless it waits for a worker or for the mutex |
| LifecycleTheorems.ThreadsKeepSettings | dstx/src/daemon.c:171-194 | no step of main, and no step of a worker outside its loop body, changes any slot's visible configuration |
| LifecycleTheorems.VisibleChangesExactly | dstx/src/led.c:456-575 | a step changes a slot's visible configuration if and only if it is a client, LED or layout store of a different configuration into it that does not land between its save and its restore |
| LifecycleTheorems.LastLayoutWins | dstx/src/daemon.c:698-715 | of layout requests found together the reset wins over the Xbox layout and that over the Switch layout; nothing but the keymap changes |
| LifecycleTheorems.EffectStarts | dstx/src/led.c:478-515 | starting an effect sets the mode, the effect, its brightness with the default for a bad one, and forgets the last colour; an unknown effect is ignored |
| LifecycleTheorems.EffectStores | dstx/src/led.c:487-511 | what is stored next: the base colour for the static effect, black for the two that follow the player |
| LifecycleTheorems.FrameNeeds | dstx/src/led.c:530-575 | a frame is stored only for a connected slot in effect mode whose effect runs, and only in a new colour |
| LifecycleTheorems.SetUpPaths | dstx/src/daemon.c:519-533 | the set-up of a Switch Pro replaces its device path and touches no other slot |
| LifecycleTheorems.SyncReadsVisible | dstx/src/settings.c:466-506 | the settings thread never reads the zeroed slot |
| LifecycleTheorems.WriteIsVisibleUnlessRegistering | dstx/src/daemon.c:171-194 | a client write without the mutex is lost exactly when it lands between save and restore |
| LifecycleTheorems.SyncDirtiesExactly | dstx/src/settings.c:466-513 | a sync brings the profile in step with the slots and marks it dirty if and only if it was not |
| LifecycleTheorems.NextSyncDirtiesExactly | dstx/src/settings.c:466-513 | over every run from a profile in step, the next sync marks it dirty if and only if some slot's visible configuration has changed |
| LifecycleTheorems.SectionIsRegister | dstx/src/daemon.c:171-238 | the five steps of the section together are the registration of the slot table |
| LifecycleTheorems.FailedSpawnGivesBack | dstx/src/daemon.c:243-252 | when no thread can be created the slot is given back, disconnected and free |
| LifecycleTheorems.FailedAllocationLoses | dstx/src/daemon.c:239-255 | when the thread arguments cannot be allocated the slot stays connected and busy without a worker |
| LifecycleTheorems.ConnectedPathsDiffer | dstx/src/daemon.c:137-191 | in every reachable state two connected DualShock or DualSense slots have different paths |
| LifecycleRace.WatchdogRaceLosesASlot | dstx/src/daemon.c:1102 | a concrete schedule from the start loses a slot |
| LifecycleRace.LostStaysLost | dstx/src/daemon.c:1089-1130 | a lost slot that the watchdog will not judge stuck before its worker has been joined stays lost over every run |
| LifecycleRace.LossIsPermanentExactly | dstx/src/daemon.c:1089-1130 | a slot lost in the window of slot k is busy in every later run if and only if it comes before k or the test of the pass does not fire for its last heartbeat; otherwise the same pass can come to it, whatever it has to join on the way, and free it |
| LifecycleRace.JoinedLossIsPermanent | dstx/src/daemon.c:1114-1130 | a lost slot whose worker the lost-connection check has joined is never free again |
| LifecycleRace.HealthyWorkerIsStopped | dstx/src/daemon.c:1090-1097 | a reachable state in which the watchdog stops a worker that has beaten this very microsecond |
| LifecycleWatchdog.FiresExactly | dstx/src/daemon.c:1090-1094 | in every reachable state a worker is judged stuck if and only if it has beaten and its last heartbeat is more than five seconds before the time of the pass, or after it |
| LifecycleWatchdog.HealthyIsStoppedExactly | dstx/src/daemon.c:1090-1097 | a worker that has beaten in the last five seconds is stopped if and only if it has beaten since the pass read the clock |
| LifecycleWatchdog.LateBeatIsFatal | dstx/src/daemon.c:1090-1117 | over every run, a worker that passes its loop head after the clock was read and before its slot is judged is stopped by that pass |
| LifecycleEffects.TrustedNeverDirties | dstx/src/led.c:456-590 | over every run without client writes and layout requests, from configurations whose effects show nothing but the stored colour, the profile stays in step and clean, if no LED request is started while main works on its slot or all static colours are black |
| LifecycleDirties.RegistrationDirties | dstx/src/led.c:456-515 | for every start and every slot whose effect starts with another colour than the stored one, a run without client writes that dirties the profile |
| LifecycleDirties.AnimationDirties | dstx/src/led.c:493-580 | likewise for every possible frame that is neither black nor the stored colour |
| LifecycleDirties.SecondFrameDirties | dstx/src/led.c:530-590 | likewise through a second frame, when the first shows the stored colour |
| LifecycleDirties.HiddenStartDirties | dstx/src/led.c:487-492 | likewise for every slot with a static effect and a stored colour other than black, through a request started while main has zeroed the slot |
| LifecycleDirties.DirtiesExactly | dstx/src/led.c:456-590 | for every start, some run without client writes and layout requests dirties the profile if and only if some stored configuration is none of those; for the careful runs and for all runs |
| EffectColours.StaysBlack | dstx/src/led.c:253-430 | an effect that dims the base colour shows nothing but black if its brightest frame is black |
| EffectColours.DimDiffers | dstx/src/led.c:253-430 | otherwise it has a frame that differs from the brightest one |
| EffectColours.OwnLooksDiffer | dstx/src/led.c:265-353 | the rainbow, wave and battery effects have two different frames that are not black, at every brightness |
| EffectColours.RainbowIsSaturated | dstx/src/led.c:265-294 | a rainbow frame has one channel full, one off, one between |
| EffectColours.BatteryShades | dstx/src/led.c:330-353 | the colours of the battery effect at each charge |
| Mailbox.ClientKeepsInv | dstx/src/utils.c:503-540 | every step of the client keeps the mailbox invariant |
| Mailbox.ServerKeepsInv | dstx/src/settings.c:568-672 | every step of the server keeps it, its unlocked look at the request included |
| Mailbox.MailboxIsFaithful | dstx/src/utils.c:503-540 | over every run with one client that does not time out: every request is handled once, in order, every call returns the result and message of its own request and name, and request and response are 0 between calls |
| Mailbox.FitFits | dstx/src/utils.c:509-511 | a copied string is the longest beginning that leaves room for the end mark, the whole string exactly when it fits |
| Mailbox.HandlingAnswers | dstx/src/settings.c:580-661 | the server answers with the request and name it copied, with 1 or -1 as its processing went, and its text; a list is stored first |
| Mailbox.ListsAreAnswered | dstx/src/settings.c:636-645 | a list always counts as done |
| Mailbox.CallRankDecreases | dstx/src/settings.c:568-672 | a call is over after at most 17 steps that do not look at an empty flag |
| Mailbox.CallNeverStalls | dstx/src/utils.c:503-540 | while a call is open such a step is possible |
| Mailbox.TimeoutMixesReplies | dstx/src/utils.c:524-540 | a concrete run with one time-out in which the next call returns the wrong reply and its own request is never handled |
| MailboxTimeouts.OwnReplyExactly | dstx/src/utils.c:503-540 | from every state reachable with any number of time-outs, a call that does not give up itself returns the reply to its own request and name, whole, if and only if, when its request was stored, the server rested or was still at work on the same one and had no list to lose |
| MailboxTimeouts.ClearWithoutTimeouts | dstx/src/utils.c:503-540 | without time-outs that condition always holds |
| ProfileCodec.GetInt | dstx/src/settings.c:93-114 | a numeric field reads within its range whenever its default is in range |
| ProfileCodec.SanitisedIsInRange | dstx/src/settings.c:206-288 | sanitising gives a configuration in range, is the identity exactly on those, and is idempotent |
| ProfileCodec.SlotRoundTrip | dstx/src/settings.c:206-352 | for every configuration, reading a written slot gives its sanitised form, keymap included |
| ProfileCodec.KeysOfColours | dstx/src/settings.c:315-352 | every colour is written as a number under its own key |
| ProfileCodec.KeysOfLevels | dstx/src/settings.c:315-352 | so are the levels |
| ProfileCodec.KeysOfCurves | dstx/src/settings.c:315-352 | and the curve presets |
| ProfileCodec.KeysOfEffects | dstx/src/settings.c:315-352 | and the effect |
| ProfileCodec.KeysOfSwitches | dstx/src/settings.c:315-352 | every switch is written as 0 or 1 under its own key |
| ProfileCodec.KeysOfFlags | dstx/src/settings.c:315-352 | so are the other flags |
| ProfileCodec.LoadedIsInRange | dstx/src/settings.c:206-288 | reading any element at all gives a configuration in range |
| ProfileCodec.LoadAfterSave | dstx/src/settings.c:178-378 | for every profile the written file is accepted and reads back as the sanitised slots; version and time saturate at the largest int |
| ProfileCodec.OddVersions | dstx/src/settings.c:206-217 | what a version or time reads as that is negative, no number, or `true` |
| ProfileCodec.ReloadIsNoOp | dstx/src/settings.c:178-378 | reloading what was written changes nothing if and only if every slot is in range |
| ProfileCodec.LoadTwice | dstx/src/settings.c:201-291 | a second load of the same file changes nothing, whatever was in memory past its array |
| WriteBack.UnusableReadsAsFactory | dstx/src/settings.c:219-288 | an element of a file with nothing usable in it reads as the configuration of a profile nobody has saved |
| ProfileService.SettingsThread.constructor | dstx/src/settings.c:400-453 | the start of the manager and of the thread in place |
| ProfileService.SettingsThread.LoadProfileFromDisk | dstx/src/settings.c:178-293 | a rejected file changes nothing; an accepted one fills the slots it has and keeps the others |
| ProfileService.SettingsThread.SaveProfileToDisk | dstx/src/settings.c:295-378 | writes the active profile under a name, or leaves the disk alone when the write or the rename fails |
| ProfileService.SettingsThread.SyncShmToActive | dstx/src/settings.c:466-513 | the profile becomes the snapshot of shared memory; dirty and time are set exactly when something differed |
| ProfileService.SettingsThread.ApplyToShm | dstx/src/settings.c:515-524 | shared memory becomes the profile and every slot's light bar is due |
| ProfileService.SettingsThread.HandleAutoSave | dstx/src/settings.c:526-540 | the automatic save in place |
| ProfileService.SettingsThread.DeleteProfile | dstx/src/settings.c:606-631 | the delete request in place, with its fall-back to Default |
| ProfileService.SettingsThread.ProcessRequest | dstx/src/settings.c:583-661 | all requests in place, with their responses |
| WriteBack.EventKeepsInv | dstx/src/settings.c:466-661 | every sync, request, automatic save and client write in range keeps the write-back invariant, failed saves included |
| WriteBack.RunKeepsInv | dstx/src/settings.c:698-720 | over every run that starts in the write-back invariant, without a delete of Default and with client writes in range, the invariant holds, so a profile that is not dirty is what its file reads back as |
| WriteBack.SyncCopies | dstx/src/settings.c:466-513 | after every sync the profile holds each slot of shared memory; it is marked dirty, with time and stamp, exactly when one differed, and nothing else changes |
| WriteBack.LoadRequestTakes | dstx/src/settings.c:580-592 | a load takes over the slots the file has, keeps the others, and makes all of it visible under its name |
| WriteBack.DeleteRequestTakes | dstx/src/settings.c:606-631 | deleting the active profile does the same with Default, if that is left and accepted |
| WriteBack.AutoSaveRequestTakes | dstx/src/settings.c:646-657 | the thread takes over a switch that is not -1 and a positive delay, answers with what is in force, and asking again changes nothing |
| WriteBack.RequestFiles | dstx/src/settings.c:583-661 | a request touches no file but the one it names, and only a save or a delete does |
| WriteBack.RequestsThatKeep | dstx/src/settings.c:598-661 | a list and an unknown request change nothing; a save changes its file and, for the active profile, the dirty flag |
| WriteBack.ResponseExactly | dstx/src/settings.c:583-661 | the response is 1 if and only if the request was carried out |
| WriteBack.StartIsUpToDate | dstx/src/settings.c:400-453 | exactly when the thread starts up to date, and exactly when it also starts in range |
| WriteBack.StartsClean | dstx/src/settings.c:400-453 | the thread starts clean, with automatic saving after two seconds in force and announced, and without a Default as version 1 with the factory's slots |
| WriteBack.SaveActiveExactly | dstx/src/settings.c:593-605 | saving the active profile leaves it up to date if and only if every slot is in range |
| WriteBack.DeleteExactly | dstx/src/settings.c:606-631 | a delete leaves things up to date if and only if the profile is another one and was, or was dirty, or Default remains and loads |
| WriteBack.LoadIsQuiet | dstx/src/settings.c:580-592 | after a load the next sync finds no change, and every light bar is due for an update |
| WriteBack.RunKeepsAnnounced | dstx/src/settings.c:159-176 | in every run clients see the name of the active profile, and the delay stays positive |
| WriteBack.EventKeepsComplete | dstx/src/settings.c:295-352 | files with an entry for every slot stay so |
| WriteBack.CleanProfileIsRecovered | dstx/src/settings.c:178-293 | with such files a process that remembers nothing reads a clean profile back exactly |
| WriteBack.ShutdownExactly | dstx/src/settings.c:455-458 | the profile is on disk after shutdown if and only if it was, or it was dirty, auto-save was on and the write worked |
| WriteBack.ElapsedIsClose | dstx/src/settings.c:530-531 | the computed milliseconds differ from the true time by less than one millisecond |
| WriteBack.WriteCanBeEarly | dstx/src/settings.c:530-532 | the bound is reached almost |
| WriteBack.EarlyExactly | dstx/src/settings.c:530-532 | the count reaches the delay too early if and only if the microseconds have gone down and less than one millisecond is missing |
| WriteBack.WritesEarlyExactly | dstx/src/settings.c:508-540 | over every run, the automatic save after the last detected change writes too early if and only if, besides the guard and a working write, that condition holds |
| WriteBack.WritesOnlyWhenQuiet | dstx/src/settings.c:508-540 | over every run an automatic write happens only when enabled, dirty, and more than delay - 1 ms after every detected change |
| WriteBack.QuietProfileIsWritten | dstx/src/settings.c:526-540 | once changes stop, the first check at least delay ms after the last one leaves the profile on disk |
| WriteBack.QuietChangeIsOnDisk | dstx/src/settings.c:466-540 | over every run, with no profile loaded meanwhile, the file then reads back, for any earlier memory, as shared memory at the last detected change |
| Debounce.FilterIsHeld | dstx/src/drivers.c:192-215 | for every sequence of readings the output is the value of the latest run that was held at least 15 ms |
| Debounce.FlipsExactly | dstx/src/drivers.c:192-215 | the output flips to a reading exactly when it differs and ends an unbroken run of at least 15 ms |
| Debounce.FlipsAreApart | dstx/src/drivers.c:192-215 | two flips are never closer than 15 ms |
| Debounce.Debouncer.DebouncePhysical | dstx/src/drivers.c:192-215 | one call in place: exactly one cell is fed; an index out of range passes the raw value |
| Debounce.Debouncer.Stabilise | dstx/src/drivers.c:282-289 | the loop over the buttons feeds every button of one slot and no other slot; switched off it changes nothing |
| Keymap.Pad.Press | dstx/src/keys.c:79-137 | the switch sets exactly the button of its number |
| Keymap.Pad.ApplyMap | dstx/src/keys.c:39-144 | a logical button is on exactly when some pressed physical button maps to it, and the hat is computed from them |
| Keymap.Pad.SetXboxLayout | dstx/src/keys.c:150-159 | the four face entries in place, the others unchanged |
| Keymap.Pad.SetSwitchLayout | dstx/src/keys.c:161-170 | the four face entries in place, the others unchanged |
| Keymap.Pad.ResetAllKeybinds | dstx/src/keys.c:26-37 | every physical button drives its own logical button |
| Keymap.IdentityFaces | dstx/src/keys.c:79-137 | after a reset the face and shoulder buttons turn on the logical buttons of their names |
| Keymap.IdentityMiddle | dstx/src/keys.c:79-137 | so do the triggers, the middle and the stick buttons |
| Keymap.IdentityRest | dstx/src/keys.c:79-137 | and the home button, the touch pad and the pad of directions |
| Keymap.XboxIsPlain | dstx/src/keys.c:150-170 | the Xbox layout leaves the face buttons as the reset does; both layouts keep the other buttons |
| Keymap.UnionIsUnion | dstx/src/keys.c:63-139 | pressing two sets of buttons turns on the union |
| Keymap.HatFollowsDpad | dstx/src/keys.c:141-143 | the hat pair is in -1..1, right over left and up over down |
| Keymap.SilentButton | dstx/src/keys.c:68-77 | a button mapped to NONE or past the last one can be ignored |
| Keymap.LosslessExactly | dstx/src/keys.c:39-144 | no two sets of pressed buttons look the same if and only if the keymap is a permutation of the logical buttons |
| Keymap.SwitchIsSwappedXbox | dstx/src/keys.c:150-170 | the Switch layout is the Xbox layout with the face buttons exchanged; both are absolute |
| Curves.TableRises | dstx/src/axes.c:56-77 | every table built from a power function rises strictly from 0 to 65535, neither cap acts |
| Curves.AxisSystem.Init | dstx/src/axes.c:56-77 | the nested loops fill all tables, once |
| Curves.AxisSystem.ApplySensitivity | dstx/src/axes.c:116-151 | the core in place computes the curve of its preset, unknown presets read as the default |
| Curves.RadialRises | dstx/src/axes.c:126-147 | for every rising table the radial map is strictly monotone, across segment borders and where the curve stops |
| Curves.RadialInterpolates | dstx/src/axes.c:126-147 | between two entries of the table the new length is their weighted mean |
| Curves.RadialIsPower | dstx/src/axes.c:56-147 | at every entry it is the power of the relative length, for every exponent |
| Curves.PresetPowers | dstx/src/axes.c:39-48 | the power of each preset |
| Curves.PresetOrder | dstx/src/axes.c:39-48 | strictly inside, Sniper, Precision and Suave push further than the stick, in this order, Default and Racing as far, FPS, Rapid and Aggressive less far |
| Curves.SampledIsCut | dstx/src/axes.c:62-72 | whatever the power function answers, an entry is that fraction of the maximum, cut to 0 and the maximum |
| Curves.CurvedIsScaled | dstx/src/axes.c:146-150 | the clamp never acts, signs are kept, each axis is the scaled one up to less than one unit |
| Curves.CurvedStaysInside | dstx/src/axes.c:146-150 | the result is never longer than the curve says and stays strictly inside the full circle |
| Curves.LinearIsIdentity | dstx/src/axes.c:37-37 | a linear table changes no vector |
| Curves.PushedFurther | dstx/src/axes.c:116-151 | pushing further along a ray never lowers an axis |
| Curves.CurvedMirror | dstx/src/axes.c:149-150 | the two axes are treated alike |
| Curves.ApplyDeadzone | dstx/src/axes.c:169-204 | centred inside the threshold or from 100 percent on, unchanged outside |
| DeltaEmission.TriggerChoicesAgree | dstx/src/dstx.h:421-446 | the trigger choice by raw value and the one by debounced button agree exactly when button and raw value do |
| DeltaEmission.Forwarder.constructor | dstx/src/nsw.c:435-456 | the cache of a fresh context |
| DeltaEmission.Forwarder.Forward | dstx/src/nsw.c:660-847 | the nineteen compare-and-write blocks in place, and the SYN |
| DeltaEmission.Translator.Forward | dstx/src/drivers.c:303-368 | full emission in place, in its own order, the debounced button choosing the trigger value |
| DeltaEmission.DeltaShowsDue | dstx/src/nsw.c:652-847 | over the life of a device, after every forward each field shows its value in the last frame whose trigger mode has it |
| DeltaEmission.DeltaRefinesFull | dstx/src/nsw.c:652-847 | over the life of a device, after every forward it shows what full emission with the same trigger choice would show |
| DeltaEmission.DeltaMatchesTranslatorExactly | dstx/src/drivers.c:303-368 | it shows what the translators would show if and only if both trigger choices give the same in the last frame that had the field |
| DeltaEmission.FullShows | dstx/src/drivers.c:303-368 | full emission shows exactly the fields of the trigger mode |
| DeltaEmission.TranslatorShows | dstx/src/drivers.c:303-368 | what the translators show, with the debounced button deciding about the trigger axes |
| DeltaEmission.OneSynAtTheEnd | dstx/src/nsw.c:842-846 | a forward adds nothing, or writes followed by one SYN |
| DeltaEmission.SynExactly | dstx/src/nsw.c:663-846 | a SYN is sent if and only if the device shows something else afterwards or a trigger axis is forwarded for the first time |
| DeltaEmission.ReadIsCurrentExactly | dstx/src/nsw.c:652-863 | after a batch the device is up to date if and only if the batch was forwarded or it already was |
| DeltaEmission.ForwardsExactly | dstx/src/nsw.c:652-858 | over every run of batches from a fresh context, the device gets exactly what the batches add that read something and come at least 4 ms after the start and after every forwarded batch before |
| DeltaEmission.ForwardsAreApart | dstx/src/nsw.c:655-658 | two forwards are never closer than 4 ms, whatever the clock does |
| DeltaEmission.RunIsCurrentExactly | dstx/src/nsw.c:652-863 | in every such run the device shows a batch if and only if it was forwarded or the device showed the same already |
| DeltaEmission.RunIsCurrent | dstx/src/nsw.c:660-847 | after every forward the device is current |
| DeltaEmission.ButtonsShow | dstx/src/nsw.c:666-745 | which button a current device shows under which code |
| DeltaEmission.SticksShow | dstx/src/nsw.c:746-840 | the same for the sticks and the hat |
| DeltaEmission.TriggersShow | dstx/src/nsw.c:776-822 | the same for the triggers in both modes |
| HidDescriptor.ParseFlatten | dstx/src/uhid.c:102-236 | items written as bytes are cut into the same items |
| HidReport.DescriptorLayout | dstx/src/uhid.c:103-229 | interpreting the descriptor by section 6.2.2 of the HID 1.11 definition declares fifteen buttons, a filler bit, the hat, six axes and three padding bytes at their places, 96 bits in all |
| HidReport.DescriptorParses | dstx/src/uhid.c:103-229 | the descriptor's bytes are well-formed items |
| HidReport.WordBits | dstx/src/uhid.c:414-434 | every bit of the button word is the button of its usage |
| HidReport.BuildInputReport | dstx/src/uhid.c:409-471 | the report in place: nothing for a buffer that is too small, otherwise thirteen bytes that a host following the descriptor decodes to the slot; in digital mode the last one is untouched, in analog mode a buffer announced with twelve bytes is overrun by one |
| HidReport.ReportDecodes | dstx/src/uhid.c:409-471 | a host that follows the descriptor reads back every button, the hat, the top 8 bits of each stick and, in analog mode, both triggers |
| HidReport.ButtonsDecode | dstx/src/uhid.c:414-434 | which button a host sees under which usage |
| HidReport.SticksDecode | dstx/src/uhid.c:450-454 | the stick axes arrive as (x + 32768) / 256 |
| HidReport.TriggersDecode | dstx/src/uhid.c:456-462 | an analog trigger arrives as its raw value while it is pulled and keeps its own button, and as its logical button says when it is released |
| HidReport.NormalizeSpreads | dstx/src/drivers.c:46-53 | the raw bytes of a stick spread over the whole range in their order, with the centre at 0 |
| HidReport.StickByteSurvives | dstx/src/drivers.c:46-53 | every raw stick byte survives normalising, shrinking by d units and packing if and only if d is at most 129 |
| LedRetry.LedPipeline.Process | dstx/src/output.c:505-554 | one call in place |
| LedRetry.LedPipeline.Intervene | dstx/src/daemon.c:910-926 | an intervention in static mode with reapply on starts ten retries |
| LedRetry.RetriesKeepDirty | dstx/src/output.c:505-554 | in every run a slot with retries left is dirty |
| LedRetry.CountsDown | dstx/src/output.c:533-538 | without a new intervention, whatever else happens, the countdown is the reports still to come and the slot stays dirty |
| LedRetry.LastReportCleans | dstx/src/output.c:539-542 | the report after the last retry leaves the slot clean |
| LedRetry.ExactlyOneMore | dstx/src/output.c:505-554 | a countdown from k makes at most k + 1 reports, and exactly that many when it ends |
| LedRetry.CleanIsQuiet | dstx/src/output.c:513-513 | a clean slot sends nothing until asked |
| LedRetry.OrdinaryExactly | dstx/src/output.c:519-542 | over every run a dirty slot without retries is reported by a look at least 20 ms (static) or 5 ms (effect) after its last ordinary report, and by no other event |
| LedRetry.CleanUntilAsked | dstx/src/output.c:513-513 | a clean slot sends nothing, and only a request or an accepted intervention makes it dirty |
| LedRetry.NextRetryExactly | dstx/src/output.c:518-538 | over every run, after a retry or the intervention the next retry is sent by the first look at least 100 ms later, and by no other event |
| LedRetry.RetriesAreApart | dstx/src/output.c:518-538 | retries are at least 100 ms apart |
| LedRetry.InterventionRestarts | dstx/src/daemon.c:918-921 | after an intervention exactly eleven reports are sent before the slot is clean |
| LedRetry.InterventionEnds | dstx/src/output.c:505-554 | eleven looks 100 ms apart after an intervention, among whatever others, send exactly eleven reports and leave the slot clean |
| ForceFeedback.Rumble.SendCommand | dstx/src/nsw.c:870-1021 | one rumble command in place, with every outcome of its system calls |
| ForceFeedback.Rumble.Finish | dstx/src/nsw.c:1038-1067 | the cleanup in place |
| ForceFeedback.CallConserves | dstx/src/nsw.c:870-1067 | whatever free number the kernel hands out, also the one given up in the same call, every call keeps: the uploaded effects are the one the context names and those whose removal failed |
| ForceFeedback.OneEffectExactly | dstx/src/nsw.c:870-1067 | over every run the device holds exactly the effect the context names, if any, if and only if no removal has failed |
| ForceFeedback.CleanupLeavesNothing | dstx/src/nsw.c:1038-1067 | after a cleanup the device holds no effect, and stays so |
| ForceFeedback.CommandTakesEffectExactly | dstx/src/nsw.c:934-1020 | with working system calls the motors play what was asked if and only if the command was not within the rate limit; every command that was not starts the limit anew |
| ForceFeedback.ReplacedUnderSameNumber | dstx/src/nsw.c:976-1020 | changing a rumble while it plays, when the kernel hands out the number just given up, leaves the device with that one effect and the new magnitudes |
| ForceFeedback.DroppedStaysDropped | dstx/src/nsw.c:934-968 | asking for the same again does not revive a dropped command |
| ForceFeedback.TargetIsShare | dstx/src/nsw.c:918-922 | the gain is a percentage, at most 100, rounded down |
| ForceFeedback.UnreadyIgnores | dstx/src/nsw.c:878-880 | a context that is not ready ignores every command |
| ForceFeedback.RumbleOffSilences | dstx/src/nsw.c:882-900 | with rumble off the context gives up its effect and its magnitudes; the effect is leaked if and only if its removal fails, and plays on if and only if stopping it fails too |
| ForceFeedback.SilenceExactly | dstx/src/nsw.c:936-962 | a command for silence takes effect if there is no effect or its stop can be written, and changes nothing otherwise |
| ForceFeedback.FailedStartIsRetried | dstx/src/nsw.c:970-1020 | when the upload or the play fails, the remembered magnitudes and time stay, so the same command is tried again |
| ForceFeedback.PollFailureDisconnects | dstx/src/nsw.c:903-908 | a device that has gone away is noticed by the next command |
| ForceFeedback.LostDeviceStaysQuiet | dstx/src/nsw.c:879-880 | after that no command does anything |
| ForceFeedback.DisconnectSilences | dstx/src/nsw.c:879-880 | nor after the monitor has noticed it |
| ForceFeedback.CleanupClears | dstx/src/nsw.c:1038-1067 | a cleanup gives up the effect and all three flags |
| BatchCommands.RunBatch | dstx/src/commands.c:696-720 | the loop in place dispatches the commands of the token list, complains only about the first token, and returns the last failure |
| BatchCommands.RoundTrip | dstx/src/commands.c:696-720 | any list of commands with plain arguments, written as tokens, is dispatched exactly and in order |
| BatchCommands.EveryTokenOnce | dstx/src/commands.c:696-720 | what is dispatched accounts for every token once, in order |
| BatchCommands.ComplaintMeansNothingRan | dstx/src/commands.c:698-702 | the missing-command error occurs exactly for a bad first token, before anything has run |
| BatchCommands.StatusIsZero | dstx/src/commands.c:718-719 | the status is 0 if and only if every command is known and its handler answered 0 |
| BatchCommands.StatusIsLastFailure | dstx/src/commands.c:712-719 | otherwise it is the answer of the last command that failed, 1 for an unknown one |
| BatchCommands.WaitIsTaken | dstx/src/commands.c:638-642 | on the whole command line the round trip holds if and only if the last command is not a bare wait |

## Left out

- Opening devices, Bluetooth retries and the set-up of a worker: one step with two outcomes; the metadata it writes into the slot is not modelled.
- Device paths longer than 127 characters, which are cut.
- The shutdown of the daemon, its final joins and the recovery of a mutex whose owner died.
- Which devices main registers, and when, between two rounds of its loop: any device at any time.
- LifecycleTheorems.ConnectedPathsDiffer: does not cover Switch Pro slots, whose path is rewritten by their worker.
- LifecycleTheorems.NoSlotIsLost: excludes exits inside the watchdog's window from a slot read as busy, and a failed allocation, for which slots are lost; `ExitInWindowLosesSlot` gives the exact condition.
- Mailbox.MailboxIsFaithful: one client that does not time out, as time-outs do mix replies; `MailboxTimeouts` has them. Several clients overwrite each other's request, and request 0 is never answered. What a request does is a black box in that module.
- JSON text, its parser and printer: a file is a tree with known keys, or garbage. Allocation failures and short writes of the temporary file are not modelled.
- Profile names that denote the same file; a name stands for its file.
- Edits of profile files by others and the reload on notification: the watch is not renewed after a rename.
- The list of profiles and the message texts of the settings thread.
- Rounding of floats, `sqrtf` and `powf`: the length is the real square root and the tables come from any function that rises strictly from 0 to 1 on the unit interval.
- The pair (-32768, -32768), whose sum of squares does not fit an `int32_t`.
- Decoding the input reports of the three controllers, axis inversion and the battery level: bit picking without an invariant of its own.
- Failed writes to the virtual device, and recreating it within one Switch Pro session, where the cache is not reset.
- HidReport.BuildInputReport: asks for the memory the code writes to, one byte more than announced for 12 bytes in analog mode; its callers pass 64.
- The interval between snapshot and clearing of the dirty flag in the LED pipeline: one call is one step. Registration, which resets the countdown, is not part of that run.
- When LED frames come and the rounding of their `float` arithmetic: a frame may come at any time, at any level of the effect's curve. `requests_mutex` is left out, which allows more runs than the code; the runs built in `LifecycleDirties` have at most one worker in the requests.
- Tearing inside a start or a restore: reading the base colour of a slot is one step, and so is restoring its settings.
- What the chores of a worker's loop body do to the slot: the fields they store are not persistent.
- Effects uploaded by games, periodic waves, the rumble pipeline of the Sony controllers, `safe_write`.
- Closing the event device, on which the kernel drops the effects of that descriptor anyway.
- What single slot commands do, the simple one-argument form and the global commands.
- Terminal interface, display, D-Bus, systemd and installation.
