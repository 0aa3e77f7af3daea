# Models of the sidecar's protocols and of key rotation

This project models the compact protocols and algorithms of the Go sidecar (`sidecar/`) and of the
key-rotation script (`scripts/rotate-encryption-key.ts`), and proves what their comments promise.
`dafny verify dfyconfig.toml` checks all of it.

The concurrent protocols are step systems: a state with one program counter per actor, one step per
atomic action (a critical section, a channel operation, an atomic load), and theorems over every run,
that is, over every sequence of states in which each follows from the one before by an enabled step.

| file | what it models |
|---|---|
| `PanelRegistry.dfy`, `PanelLifecycle.dfy` | the panel registry, and Spawn callers, runner goroutines with their close watcher and reveal timer, Close callers and closed windows |
| `FirstRun.dfy` | the first-run window: handshake, deep-link and paste goroutines against the teardown |
| `CdpClient.dfy`, `CdpFraming.dfy`, `BrowserCache.dfy` | the browser pipe: replies and event waiters, NUL framing, and who launches and shuts down the browser |
| `GtkLoop.dfy`, `GtkWindows.dfy` | synchronous calls into the shared GTK loop, and callbacks on window destruction |
| `KeyRotation.dfy` | key rotation with a crash after any step, recovery, and further rotations |
| `Ambient.dfy` | ambient suppression and the playback hook that feeds it |
| `AccessibilityTree.dfy`, `SnapshotSelection.dfy` | what the accessibility and page snapshots list |
| `SidecarConfig.dfy` | loading, migrating and sparsely saving the configuration |
| `ProcessObserver.dfy`, `FileObserver.dfy` | event streams from successive listings |
| `NotifyParser.dfy`, `KeyCombo.dfy`, `Escaping.dfy`, `NotifyNonce.dfy`, `Handshake.dfy` | the notification parser, key combos, string literals, single-use nonces, the handshake poll loop |
| `Options.dfy`, `Strings.dfy` | an option type; trimming, splitting and joining |

Goroutines, threads and the operating system appear as steps that may happen at any point where they
are enabled. Network replies, process and directory listings, random draws, clocks and the point at
which a process dies are parameters, arbitrary in every theorem.

## Where the code and its documentation disagree

The models follow the code. Each point has a lemma with a concrete input and one with the exact
condition.

- Spawn answers "panel already exists", documented as "is already open", either because the panel it
  looked up has signalled ready, or because its deadline has passed. The look-up in the registry, the
  look at `ready` and the steps of the creation are separate, so either answer can name a creation
  that has failed (`AlreadyOpenCanNameAFailedPanel`, `DeadlineAnswerCanNameAFailedPanel`,
  `DeadlineAnswerCanNameARemovedPanel`). The entry also outlives the window, and Spawn does not make
  the check that Focus makes for that, so either answer can name a panel whose window has been closed
  and that will never be open again (`ReadyAnswerCanNameAClosedPanel`,
  `DeadlineAnswerCanNameAClosedPanel`). `AlreadyOpenAnswerExact` says when the panel named is open or
  can still open: the registry must still hold it; for the answer because of `ready`, on the shared
  loop `uiClosed` must not be closed, and off it the panel's loop must still run and its window be
  there; for the answer at the deadline, the creation must not have failed, the window, once created,
  must be there, and on the shared loop `uiClosed` must not be closed.
- Off the shared loop a Close that looked up a panel in time may go on after the panel's engine has
  been freed (`CloseCanComeTooLate`), exactly when the panel's runner has exited by then
  (`LateCloseExactly`). It never does while the registry still holds the panel or its `done` is open
  (`LateCloseIsAfterDone`).
- The header of the rotation script offers two rules for a leftover sidecar file. Deciding by
  whether the commit happened is safe; deciding by whether the line after the commit was printed
  loses every row when the crash falls between the two (`LogRuleCanLoseRows`, `LogRuleExactly`). It
  also says that before the commit nothing on disk has changed and one may rerun; once the sidecar
  file is written the rerun is refused (`RerunCanBeRefused`, `RerunAfterCrashBeforeCommit`).
- The playback hook is meant never to shorten a hold newer than its own. A hook that was installed
  between a start and its stop remembers no hold, and its stop ends whichever is current
  (`ReinstalledHookCutsNewerHold`, `StopCutsExactly`).
- The file observer warns that the tree exceeds the cap also when it holds exactly as many files as
  the cap and none is missed (`WarningCanBeWrong`), and when roots overlap so that what follows the
  cap has been met before (`OverlapCanWarnWrongly`). `WarningExactly` gives the exact condition.
- The page snapshot closes a shortened list with "All inputs, buttons, and textboxes are shown above".
  An element that is a button by its role only is listed as one among the key elements but is not
  kept as one, so it can be hidden (`ButtonCanBeHidden`, `ButtonsShownExactly`).

## Model

| member | source | states |
|---|---|---|
| PanelRegistry.Registry.Put | sidecar/panels.go:157-161 | an id maps to the last panel put under it; other ids keep theirs |
| PanelRegistry.Registry.Get | sidecar/panels.go:163-168 | the panel under an id, if any, without changing the registry |
| PanelRegistry.Registry.Delete | sidecar/panels.go:170-174 | the id is gone, whoever owned it; other ids keep theirs |
| PanelRegistry.Registry.RemoveIf | sidecar/panels_runtime.go:102-108 | the id is dropped only if it still belongs to this panel |
| PanelRegistry.Registry.Ids | sidecar/panels.go:176-184 | every registered id, each once |
| PanelLifecycle.RunKeeps | sidecar/panels_runtime.go:110-235 | the invariant of locks, entries, channels and native state holds in every reachable state |
| PanelLifecycle.LivePanelOwnsItsEntry | sidecar/panels_runtime.go:169-235 | between its put and its own first deleteIf a panel is the registry's entry for its id |
| PanelLifecycle.AtMostOneLivePanelPerId | sidecar/panels_runtime.go:122-169 | two panels of one id are never both in that span |
| PanelLifecycle.EntryLeavesOnlyWithItsPanel | sidecar/panels_runtime.go:102-108 | only a panel's own deleteIf removes its entry, and no entry is overwritten: a late teardown never touches a newer panel |
| PanelLifecycle.ReadyEntryCameUp | sidecar/panels_runtime.go:223-235 | an entry whose `ready` is closed comes from a creation that did not fail and, on the shared loop, had its window at setup |
| PanelLifecycle.ChannelsCloseAtMostOnce | sidecar/panels_runtime.go:202-235 | `ready`, `done` and `uiClosed` are each closed at most once |
| PanelLifecycle.EngineFreedLast | sidecar/panels_runtime.go:179-221 | the engine is freed only after done is closed, the entry given up and the reveal timer and close watcher have ended, neither of which dispatches later, and never on the shared loop |
| PanelLifecycle.DownIsNeverUp | sidecar/panels_runtime.go:223-235 | a panel whose creation failed, whose window is gone, whose close was signalled on the shared loop, or whose runner is past its wait is never open again, whatever happens |
| PanelLifecycle.RunnerComesUp | sidecar/panels_runtime.go:223-235 | any other panel whose runner was launched is open or can still open |
| PanelLifecycle.NotStartedIsLaunching | sidecar/panels_runtime.go:155-171 | a panel whose runner is not launched yet belongs to the caller that holds the service lock |
| PanelLifecycle.AlreadyOpenAnswerExact | sidecar/panels_runtime.go:130-150 | the panel named by "panel already exists" is open or can still open if and only if the registry still holds it and: after ready, no close was signalled (shared loop) or its loop runs and its window is there (off it); at the deadline, its creation has not failed and neither its window nor uiClosed shows a close |
| PanelLifecycle.AlreadyOpenCanNameAFailedPanel | sidecar/panels_runtime.go:130-150 | a run in which it is answered, because of `ready`, about a failed creation |
| PanelLifecycle.DeadlineAnswerCanNameAFailedPanel | sidecar/panels_runtime.go:145-149 | a run in which it is answered at the deadline about a creation that has failed and is still registered |
| PanelLifecycle.DeadlineAnswerCanNameARemovedPanel | sidecar/panels_runtime.go:145-149 | a run in which it is answered at the deadline about a panel no longer registered and not yet ready |
| PanelLifecycle.ReadyAnswerCanNameAClosedPanel | sidecar/panels_runtime.go:130-150 | on either kind of loop a run in which it is answered, because of `ready`, about a registered panel whose window has been closed; on the shared loop uiClosed already says so |
| PanelLifecycle.DeadlineAnswerCanNameAClosedPanel | sidecar/panels_runtime.go:145-149 | a run in which it is answered at the deadline about a registered panel whose window was closed before setup |
| PanelLifecycle.LockHolderCanMove | sidecar/panels_runtime.go:130-169 | whoever holds the service lock can take its next step, so nobody waits for a creation with the lock held |
| PanelLifecycle.WatcherJoinReturns | sidecar/panels_runtime.go:646-689 | once told to stop, however the run goes on, the close watcher takes at most two more steps and can always take the next, and then the teardown goes on |
| PanelLifecycle.TimerJoinReturns | sidecar/panels_runtime.go:388-406 | the same of the reveal timer |
| PanelLifecycle.CloseFoundTheEntry | sidecar/panels_runtime.go:732-745 | a Close uses an engine only if the registry held the panel's entry when it looked |
| PanelLifecycle.LateCloseExactly | sidecar/panels_runtime.go:741-806 | a Close uses a freed engine exactly when, off the shared loop, it goes on after the panel's runner has exited |
| PanelLifecycle.LateCloseIsAfterDone | sidecar/panels_runtime.go:741-806 | no Close comes late while the registry still holds the panel or its `done` is open |
| PanelLifecycle.CloseCanComeTooLate | sidecar/panels_runtime.go:741-806 | a run in which it does |
| FirstRun.CapturedMeans | sidecar/hosted_window.go:499-537 | the captured tokens are exactly those a handshake stored while self-host was not chosen |
| FirstRun.VerifiedMeans | sidecar/hosted_window.go:566-603 | the verified tokens are exactly those a deep-link or paste verification accepted |
| FirstRun.RegisteredMeans | sidecar/hosted_window.go:458-463 | the registered nonces are exactly those a handshake made live |
| FirstRun.ReturnedTokenIsJustified | sidecar/hosted_window.go:616-637 | what is returned is empty, a token captured while self-host was not chosen, or a verified one |
| FirstRun.CapturedTokenIsNotLost | sidecar/hosted_window.go:525-537 | once a hosted token was captured, the window returns a token |
| FirstRun.ReturnsATokenExactly | sidecar/hosted_window.go:499-603 | a token is returned if and only if a hosted one was captured, a deep-linked one verified, or the verdict on a verified pasted one delivered before the window closed |
| FirstRun.VerifiedLinkIsNotLost | sidecar/hosted_window.go:588-601 | once a deep-linked token is verified the window returns a token |
| FirstRun.NoCallbackAfterClose | sidecar/deeplink.go:148-201 | after the listener's Close has returned, neither its accept loop nor a connection moves again |
| FirstRun.StepAfterJoin | sidecar/hosted_window.go:621-636 | after the join only the main thread, queued closures and the reveal timeout move |
| FirstRun.NothingJoinsAfterWait | sidecar/hosted_window.go:621-636 | after the WaitGroup's Wait no goroutine is added to it, none of those it joined dispatches, and the closures they queued only become fewer |
| FirstRun.FreedWindowIsUntouched | sidecar/hosted_window.go:206-221 | the engine is freed after every join, and nothing dispatches into it afterwards |
| FirstRun.DeepLinkNamesARegisteredNonce | sidecar/hosted_window.go:566-576 | a deep link is acted on only under a nonce that a handshake of this window registered |
| FirstRun.OneOfEachAtATime | sidecar/hosted_window.go:541-600 | handshakes never overlap, and neither do deep-link verifications |
| CdpClient.ReplyIsTheCallsOwn | sidecar/browser.go:420-463 | a call that ends with a reply ends with the one bearing its own id |
| CdpClient.ReadLoopNeverBlocks | sidecar/browser.go:360-396 | the reply channel has room whenever the read loop sends on it |
| CdpClient.FinishedCallLeavesNothingPending | sidecar/browser.go:420-463 | however a call ends, its id is no longer in `pending` |
| CdpClient.AtMostOneReplyPerCall | sidecar/browser.go:360-396 | no call is sent a second reply, whatever the browser sends |
| CdpClient.SettledStays | sidecar/browser.go:360-396 | an id that has left `pending` never comes back |
| CdpClient.FiredCountsEvents | sidecar/browser.go:75-83 | fireEvent is called once for each message naming the event |
| CdpClient.WaiterKeepsItsStart | sidecar/browser.go:62-83 | a waiter stays registered from its registration to the next event of its name |
| CdpClient.WaiterClosedByTheFirstEvent | sidecar/browser.go:62-83 | a waiter is closed exactly once, by the first event of its name after it registered |
| CdpFraming.Consume | sidecar/browser.go:360-370 | the frames one chunk completes and the part kept for later add up to the stream's |
| CdpFraming.ReadLoop | sidecar/browser.go:360-396 | whatever the chunking, the messages read are those of the whole stream |
| CdpFraming.ReadsBackWhatWasWritten | sidecar/browser.go:431-443 | reading a written stream gives its messages in order, without empty frames |
| CdpFraming.AnyChunkingRecoversTheMessages | sidecar/browser.go:360-396 | non-empty NUL-free messages survive writing, any chunking and reading, exactly |
| BrowserCache.RunKeeps | sidecar/browser.go:102-121 | the invariant of lock, cache, launches and shutdowns holds in every reachable state |
| BrowserCache.CachedAndLaunchingAreOpen | sidecar/browser.go:515-524 | the cached client is open, and nothing can close a client while it is being launched |
| BrowserCache.AtMostOneBrowserInUse | sidecar/browser.go:102-121 | of two clients at least one has been taken out of use |
| BrowserCache.KilledAtMostOnce | sidecar/browser.go:550-562 | shutdown is idempotent: a browser is terminated at most once, after its flag was set |
| BrowserCache.NothingLeaks | sidecar/browser.go:550-584 | when all actors have finished, every client but the cached one has been terminated exactly once |
| BrowserCache.ReturnedClientIsTheCachedOne | sidecar/browser.go:102-121 | getCDP returns the cached, open client, in the mode explicitly asked for |
| GtkLoop.RunKeeps | sidecar/gtk_main_linux.go:151-182 | a stored function is in the table, running or finished, never two of these, in every reachable state |
| GtkLoop.AnswerIsExact | sidecar/gtk_main_linux.go:151-182 | true means the function ran to completion exactly once, before the return; false that it never ran and never will |
| GtkLoop.AnswerStays | sidecar/gtk_main_linux.go:151-182 | an answer, once given, is final |
| GtkLoop.NoAbandonedFunctions | sidecar/gtk_bridge_linux.go:14-20 | the function table holds only functions whose callers still wait |
| GtkLoop.StoppedLoopHangsNobody | sidecar/gtk_main_linux.go:151-182 | after the loop has stopped, however the run goes on, a call on another thread takes at most six more steps, three once it waits, can always take the next, and answers true if and only if its function had run |
| GtkWindows.EachCallbackInOnePlace | sidecar/gtk_main_linux.go:194-232 | every registered callback is waiting, taken or run, exactly once in all |
| GtkWindows.RunsAtMostOnce | sidecar/gtk_bridge_linux.go:23-31 | no callback runs twice |
| GtkWindows.RunsAtOnceWhenGone | sidecar/gtk_main_linux.go:222-232 | for a window already gone the callback runs in the registering step; for a live one nothing runs |
| GtkWindows.WaitsWhileAlive | sidecar/gtk_main_linux.go:222-232 | it waits, unrun, while its window is not destroyed |
| GtkWindows.TakenStaysTaken | sidecar/gtk_bridge_linux.go:23-31 | once taken it never waits again |
| GtkWindows.RunsExactlyAtDestruction | sidecar/gtk_bridge_linux.go:23-31 | registered for a live window it has run if and only if that window was destroyed since |
| GtkWindows.DrainRunsAll | sidecar/gtk_bridge_linux.go:23-31 | handling a destruction runs all it took, in order, innermost destruction first |
| GtkWindows.WindowTable.TrackWindow | sidecar/gtk_main_linux.go:196-209 | tracking is one Track step; a null or known window changes nothing |
| GtkWindows.WindowTable.Alive | sidecar/gtk_main_linux.go:213-218 | whether the window is tracked |
| GtkWindows.WindowTable.OnDestroyed | sidecar/gtk_main_linux.go:222-232 | registering is one Register step |
| GtkWindows.WindowTable.Destroyed | sidecar/gtk_bridge_linux.go:23-31 | the loop over the taken callbacks is one Destroy step followed by draining |
| KeyRotation.Script.DecryptAll | scripts/rotate-encryption-key.ts:222-235 | every row decrypted in order, or the first row that does not open |
| KeyRotation.Script.Transact | scripts/rotate-encryption-key.ts:249-268 | the updates by id reseal each row in place, or none at all |
| KeyRotation.Script.RunRotation | scripts/rotate-encryption-key.ts:189-273 | the disk and the outcome after a run that stops at any point |
| KeyRotation.RotationsKeepEveryRow | scripts/rotate-encryption-key.ts:189-273 | over any rotations, crashes and recoveries: rows, ids, plaintexts and bindings survive, and all encrypted rows are under one key, held in the key file or, once committed, in its sidecar |
| KeyRotation.RecoveryRestoresHealth | scripts/rotate-encryption-key.ts:189-200 | after the documented recovery a rotation completes again |
| KeyRotation.CompletedRotation | scripts/rotate-encryption-key.ts:249-273 | afterwards the new key alone is on disk, seals every row, and the old key opens none |
| KeyRotation.UnreadableRowChangesNothing | scripts/rotate-encryption-key.ts:222-235 | a row that does not open aborts the run, is named, and leaves the disk unchanged |
| KeyRotation.RerunAfterCrashBeforeCommit | scripts/rotate-encryption-key.ts:23-26 | before the commit key file and rows are unchanged, and a rerun goes ahead if and only if the sidecar was not yet begun |
| KeyRotation.RerunCanBeRefused | scripts/rotate-encryption-key.ts:23-26 | a healthy disk and a crash after which the rerun is refused |
| KeyRotation.LogRuleCanLoseRows | scripts/rotate-encryption-key.ts:27-32 | deciding by the log line can leave rows under a key no file holds |
| KeyRotation.LogRuleExactly | scripts/rotate-encryption-key.ts:27-32 | it keeps every row readable if and only if the crash did not fall between a non-empty commit under a changed key and the line |
| Ambient.AmbientGuard.SuppressedNow | sidecar/observers.go:95-99 | suppressed while the counter is up or the deadline lies ahead |
| Ambient.AmbientGuard.Hold | sidecar/observers.go:103-107 | the counter rises by one, nothing else changes |
| Ambient.AmbientGuard.Release | sidecar/observers.go:111-120 | the counter falls by one, not below zero |
| Ambient.AmbientGuard.HoldFor | sidecar/observers.go:125-133 | a new number, and a deadline that only moves forward |
| Ambient.AmbientGuard.EndHoldAfter | sidecar/observers.go:141-150 | the deadline only moves backward, and only for the newest hold or none named |
| Ambient.PlayHook.OnPlayState | sidecar/client.go:106-129 | a start takes a hold and remembers it; a stop ends the remembered one |
| Ambient.NumbersCountHolds | sidecar/observers.go:125-133 | holds are numbered from 1 without gaps, and each hook remembers the last one it took |
| Ambient.NewestHoldLasts | sidecar/observers.go:125-150 | while a hold is the newest and no end naming it or none has come, suppression lasts at least its duration |
| Ambient.LateStopChangesNothing | sidecar/client.go:106-129 | a stop edge later than a newer hold changes nothing |
| Ambient.SuppressionIsBounded | sidecar/observers.go:40-66 | with the counter at zero suppression ends by the latest hold's start plus the longest duration |
| Ambient.DepthIsReflectedWalk | sidecar/observers.go:103-120 | the counter is holds minus releases, less the lowest value that difference has had |
| Ambient.StopCutsExactly | sidecar/client.go:106-129 | a stop edge pulls the deadline in if and only if it lies beyond the tail and the hook took the newest hold or never saw a start |
| Ambient.ReinstalledHookCutsNewerHold | sidecar/client.go:106-129 | a run in which a reinstalled hook cuts a newer hold |
| AccessibilityTree.ReverseInPlace | sidecar/browser_ax.go:135-138 | the swapping loop reverses the slice |
| AccessibilityTree.PathOf | sidecar/browser_ax.go:121-140 | the walk ends on every acyclic list, with the nearest at most six meaningful ancestors, root first |
| AccessibilityTree.PathIsNearestSix | sidecar/browser_ax.go:121-140 | a path holds the segments of the nearest meaningful ancestors, at most six, root first; a meaningful ancestor left out lies beyond the sixth |
| AccessibilityTree.Collect | sidecar/browser_ax.go:142-213 | the elements of the emittable nodes, by kind, in tree order, with their paths and ordinals |
| AccessibilityTree.BuildElements | sidecar/browser_ax.go:113-227 | what is returned are the elements of the emitted nodes |
| AccessibilityTree.ChosenOrdered | sidecar/browser_ax.go:158-213 | only emittable nodes of the kind are collected, in tree order |
| AccessibilityTree.ChosenCovers | sidecar/browser_ax.go:158-213 | every emittable node is collected |
| AccessibilityTree.EmittedIsInteractiveFirst | sidecar/browser_ax.go:215-227 | interactive nodes first, context after, each in tree order, cut only to stay within 300 |
| AccessibilityTree.NoActionableNodeIsDropped | sidecar/browser_ax.go:152-158 | every emittable interactive node is output |
| AccessibilityTree.DroppedContextComesLast | sidecar/browser_ax.go:215-227 | the context kept is a prefix |
| AccessibilityTree.OrdinalsTellApart | sidecar/browser_ax.go:142-151 | no two collected elements share parent, role, truncated name and ordinal |
| AccessibilityTree.KeysCanCollide | sidecar/browser_ax.go:146-151 | different parents and roles can share a counter key |
| SnapshotSelection.CountLabels | sidecar/browser_snapshot.go:201-207 | the frequency of each aria-label |
| SnapshotSelection.TwoPasses | sidecar/browser_snapshot.go:215-232 | the first pass and the deferred elements, each in page order |
| SnapshotSelection.SortById | sidecar/browser_snapshot.go:241 | the same elements in id order |
| SnapshotSelection.Select | sidecar/browser_snapshot.go:201-241 | the list shown is the kept elements in page order, and shown plus hidden is the total |
| SnapshotSelection.ShownIsSubsequence | sidecar/browser_snapshot.go:234-241 | the list is a subsequence of the page |
| SnapshotSelection.PriorityIsAlwaysShown | sidecar/browser_snapshot.go:209-227 | every high-value and every uniquely labelled element is shown |
| SnapshotSelection.ShownSize | sidecar/browser_snapshot.go:234-239 | the length is the larger of the first pass and min(80, total) |
| SnapshotSelection.SmallPageIsShownWhole | sidecar/browser_snapshot.go:313-315 | a page of at most 80 elements is shown whole |
| SnapshotSelection.ButtonsShownExactly | sidecar/browser_snapshot.go:313-315 | every button is shown if and only if at most fifteen are buttons by role alone without a label of their own, or the last of these still finds room among the eighty |
| SnapshotSelection.ButtonCanBeHidden | sidecar/browser_snapshot.go:209-232 | a page whose list is shortened and lacks a button |
| SidecarConfig.MergeBlockedPaths | sidecar/config.go:105-122 | the user's non-blank entries, then the defaults not yet covered |
| SidecarConfig.MergeIsIdempotent | sidecar/config.go:105-122 | the user's entries stay first and in order, every default is covered, and merging again adds nothing |
| SidecarConfig.MergeCapabilities | sidecar/config.go:186-202 | saved capabilities, then the default ones they lack |
| SidecarConfig.CapabilitiesSettle | sidecar/config.go:186-202 | every default capability reaches every install, and merging again changes nothing |
| SidecarConfig.Loader.FillGeneral | sidecar/config.go:176-185 | zero general tunables become their defaults |
| SidecarConfig.Loader.FillAwareness | sidecar/config.go:231-250 | zero awareness tunables become their defaults |
| SidecarConfig.Loader.Migrate | sidecar/config.go:204-229 | superseded intervals of unversioned files are unset; files before version 2 gain the default paths |
| SidecarConfig.Loader.LoadConfig | sidecar/config.go:160-252 | the configuration loaded from any file, from no file, and the errors for a file that cannot be read or parsed |
| SidecarConfig.SparseForSave | sidecar/config.go:262-295 | the file saved holds exactly the tunables that are neither zero nor the default |
| SidecarConfig.SaveThenLoad | sidecar/config.go:262-295 | every non-zero tunable survives saving and loading, even one equal to a superseded default |
| SidecarConfig.LoadSaveLoad | sidecar/config.go:160-295 | from any file, load, save and load gives what the first load gave |
| SidecarConfig.ChangedDefaultsFollow | sidecar/config.go:28-42 | a value that equalled the old default follows a changed default; any other stays |
| SidecarConfig.ExplicitIntervalSurvives | sidecar/config.go:65-96 | each of the two intervals survives exactly if it is set, not zero, and not superseded in an unversioned file; otherwise the default applies |
| SidecarConfig.ShippedDefaults | sidecar/config.go:43-87 | none of this build's defaults is zero or superseded |
| SidecarConfig.OldFilesGainDefaultPaths | sidecar/config.go:222-228 | a file before version 2 ends up covering every default path; a later one keeps its own list, even empty |
| ProcessObserver.Observer.Seed | sidecar/observer_process.go:40-56 | the first listing becomes the baseline and sends nothing |
| ProcessObserver.Observer.Poll | sidecar/observer_process.go:69-100 | the events replayed on the seed give the processes listed: one start per new pid, one stop per vanished one |
| ProcessObserver.StartsAndStopsAlternate | sidecar/observer_process.go:69-100 | starts and stops of a pid alternate, and a stop carries the name of its start |
| ProcessObserver.FirstEvent | sidecar/observer_process.go:40-56 | the first event of a pid is a stop, with the seeded name, exactly if it was in the seed |
| FileObserver.Observer.Scan | sidecar/observer_files.go:94-138 | the first 20000 files are recorded, and the cap is reported if and only if that many were met |
| FileObserver.WarningExactly | sidecar/observer_files.go:130-134 | no file is missed without a warning; for files met once each the warning is right exactly when they are more than the cap; in general it is wrong exactly when all that follows the cap was met before it |
| FileObserver.WarningCanBeWrong | sidecar/observer_files.go:130-134 | one root with exactly 20000 files, each met once |
| FileObserver.OverlapCanWarnWrongly | sidecar/observer_files.go:94-138 | a root given twice, walked past the cap though no file is missed |
| FileObserver.Observer.Seed | sidecar/observer_files.go:141-150 | the first scan becomes the baseline and sends nothing |
| FileObserver.Observer.Poll | sidecar/observer_files.go:165-211 | at most one event per path, at most 100, all of them real changes, and below the cap all changes |
| FileObserver.BelowCapEventsAreTheDifference | sidecar/observer_files.go:165-211 | below the cap the events replayed on the earlier scan give the later one |
| NotifyParser.Parser.Feed | sidecar/observer_notifications.go:88-138 | what a line hands out and what is still to come add up to what was to come before |
| NotifyParser.Parser.Flush | sidecar/observer_notifications.go:141-147 | the notification in progress, if any |
| NotifyParser.ParseStream | sidecar/observer_notifications.go:78-147 | feeding lines and flushing gives the batch parse by blocks |
| NotifyParser.CompletedIsSummary | sidecar/observer_notifications.go:115-137 | a block yields string arguments 0, 2 and 3 and its last byte hint |
| NotifyParser.StringArgReadsBack | sidecar/observer_notifications.go:64-67 | a quoted argument reads back as its text, whatever quotes the text holds |
| NotifyParser.OnePerHeader | sidecar/observer_notifications.go:91-98 | one notification per Notify header |
| NotifyParser.BlocksAreIndependent | sidecar/observer_notifications.go:99-107 | what comes before another header does not influence what comes after |
| KeyCombo.ParseKeyCombo | sidecar/browser_input.go:89-173 | the parsed key, or nothing for an empty part, an unknown modifier or an unknown key |
| KeyCombo.ModifiersRoundTrip | sidecar/browser_input.go:102-126 | the printed modifiers parse to the same mask and print the same again |
| KeyCombo.KeyRoundTrip | sidecar/browser_input.go:128-163 | the printed key names the same key |
| KeyCombo.DisplayRoundTrip | sidecar/browser_input.go:89-173 | parsing the Display of any accepted combo gives back every field |
| Strings.SplitJoin | sidecar/browser_input.go:94-94 | splitting undoes joining |
| Escaping.ChainIsOnePass | sidecar/hosted_window.go:643-652 | the chain of seven replacements is one pass over the characters |
| Escaping.JsLiteralReadsBack | sidecar/hosted_window.go:639-652 | a single-quoted literal reader gives back the text and ends exactly at the closing quote |
| Escaping.JsEscapeIsInert | sidecar/hosted_window.go:639-652 | the escaped text has no line terminator and no less-than sign |
| Escaping.PsLiteralReadsBack | sidecar/psquote.go:8-23 | the literal reads back as the text, and ends exactly there, if and only if no quote character follows |
| NotifyNonce.Nonces.Mint | sidecar/notify_nonce.go:38-54 | a mint replaces the id's nonce and prunes expired ones; without entropy nothing changes |
| NotifyNonce.Nonces.Consume | sidecar/notify_nonce.go:58-70 | a consume succeeds only for the stored, unexpired nonce, and burns it |
| NotifyNonce.PruningChangesNoAnswer | sidecar/notify_nonce.go:38-54 | the pruned table answers every consume as an unpruned one would |
| NotifyNonce.ConsumeExactly | sidecar/notify_nonce.go:58-70 | a consume succeeds if and only if it shows the newest mint's nonce for its id, unexpired and unburned |
| NotifyNonce.UsesNeverExceedMints | sidecar/notify_nonce.go:58-70 | successful consumes of an id never exceed its mints |
| NotifyNonce.ReplayFails | sidecar/notify_nonce.go:56-70 | a replay fails unless that nonce was minted again |
| Handshake.AwaitToken | sidecar/hosted.go:269-320 | the first settling round decides; waits are min(2·2^k, 15) seconds after k errors in a row; step hints come in order |
| Handshake.CapUTF16 | sidecar/hosted.go:120-135 | the result is a prefix that fits and would not with one more character |
| Handshake.CapIsLongest | sidecar/hosted.go:120-135 | no longer prefix fits |

## Left out

- Panels spawned as multi-instance under a reused id; the native calls, layout and hotkeys behind each panel step.
- What happens when a Close on Windows uses a freed engine; only when it does.
- PanelLifecycle.ReadyEntryCameUp: off the shared loop setup does not look at the window, so the window clause is stated for the shared loop only.
- FirstRun.CapturedTokenIsNotLost: stated for hosted captures; a pasted token that is verified but whose verdict closure has not run when the window closes is dropped, as the code does, and FirstRun.ReturnsATokenExactly says so.
- GtkWindows.WindowTable.Destroyed: its callbacks are recorded as run and do nothing themselves; callbacks that register or destroy in turn are covered by the step system only.
- Parsing of deep-link URLs, JWTs and JSON: the models take the result of each parse.
- Wrap-around of the 64-bit message, token and hold numbers.
- The browser's message contents, target attachment and launch checks: a launch succeeds or fails at any point.
- Power loss, the daemon lock and the environment key in key rotation; cryptography is symbolic, and the new key is any key.
- The window title observer's polling; constants other than those the properties use.
- Accessibility values, state properties and the hash of the durable signature: copied or computed from the modelled fields.
- Snapshot text, its truncations and the lines printed for each shown element.
- Configuration keys without defaults or migrations; canonicalPath is an arbitrary function; YAML syntax.
- Which files a walk skips; the order in which Go visits a map, which is arbitrary here.
- The observer's own filter on notifications (dropping empty ones, default application and urgency).
- Lower-casing in key combos is exact for ASCII and for the two other characters whose lower case is ASCII; other letters never name a key.
- Raw line separators, which ECMA-262 allows inside string literals since 2019, are refused by the reader here; legacy octal escapes are not read.
- HTML, CSS and in-page JavaScript, log text, platform variants of hotkeys, OCR, desktop control and link routing, and the TypeScript sources other than key rotation.
